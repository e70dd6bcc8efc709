/**
 * The response normalisers of the Jira client, which turn the loosely shaped
 * JSON of the standard REST API or of a custom API into fixed-shape records,
 * and the request payloads that create_issue, update_issue and add_comment
 * send.
 */
module JiraClient {
  import opened Json
  import opened Text
  import opened JiraAdf

  /** The `JiraIssue` dataclass. A field holds whatever JSON value the
      normaliser picked: nothing checks that it is a string. */
  datatype JiraIssue = JiraIssue(
    id: Json, key: Json, summary: Json, description: Json, status: Json,
    assignee: Json, reporter: Json, created: Json, updated: Json,
    priority: Json, issueType: Json, project: Json, labels: Json)

  /** The `JiraComment` dataclass. */
  datatype JiraComment = JiraComment(id: Json, author: Json, body: Json, created: Json, updated: Json)

  /** The `JiraProject` dataclass. */
  datatype JiraProject = JiraProject(id: Json, key: Json, name: Json, description: Json, lead: Json)

  /** The `JiraTransition` dataclass. */
  datatype JiraTransition = JiraTransition(id: Json, name: Json, toStatus: Json)

  /** The dictionary `_normalize_custom_search_result` returns. */
  datatype JiraSearchResult = JiraSearchResult(issues: seq<JiraIssue>, total: Json, maxResults: int, startAt: int)

  /** `JiraIssue(...)` followed by `__post_init__`, which replaces labels of
      None by the empty list: a constructed issue never has null labels. */
  function MakeIssue(id: Json, key: Json, summary: Json, description: Json, status: Json,
                     assignee: Json, reporter: Json, created: Json, updated: Json,
                     priority: Json, issueType: Json, project: Json, labels: Json): (r: JiraIssue)
    ensures r.labels != JNull
    ensures labels != JNull ==> r.labels == labels
    ensures r.id == id && r.key == key && r.summary == summary && r.description == description
    ensures r.status == status && r.assignee == assignee && r.reporter == reporter
    ensures r.created == created && r.updated == updated && r.priority == priority
    ensures r.issueType == issueType && r.project == project
  {
    JiraIssue(id, key, summary, description, status, assignee, reporter, created, updated,
              priority, issueType, project, if labels == JNull then JArr([]) else labels)
  }

  /** `_normalize_jira_issue` runs without raising on data: every nested
      object it calls `.get` on is an object, and a description in the
      document format can be walked. */
  ghost predicate JiraIssueDefined(data: map<string, Json>)
  {
    && AbsentOrObject(data, "fields")
    && var f := ObjectAt(data, "fields");
       && AbsentOrObject(f, "status") && AbsentOrObject(f, "issuetype") && AbsentOrObject(f, "project")
       && FalsyOrObject(f, "assignee") && FalsyOrObject(f, "reporter") && FalsyOrObject(f, "priority")
       && AdfDefined(Get(f, "description"))
  }

  /** `fields.get(k, {}).get(name) if fields.get(k) else None`: the name of a
      nested object that is present and non-empty, else None. */
  function NameIfTruthy(f: map<string, Json>, k: string, name: string): (r: Json)
    requires FalsyOrObject(f, k)
    ensures !TruthyAt(f, k) ==> r == JNull
    ensures TruthyAt(f, k) ==> r == Get(f[k].fields, name)
  {
    if TruthyAt(f, k) then Get(f[k].fields, name) else JNull
  }

  /** `_normalize_jira_issue`. The plain fields are presence-based lookups:
      a key that is present is copied even when its value is null, and an
      absent one gives the default. A description that is a non-empty object
      is replaced by the text extracted from it. */
  function NormalizeJiraIssue(data: map<string, Json>): (r: JiraIssue)
    requires JiraIssueDefined(data)
    ensures r.id == (if "id" in data then data["id"] else JStr(""))
    ensures r.key == (if "key" in data then data["key"] else JStr(""))
    ensures var f := ObjectAt(data, "fields");
      && r.summary == (if "summary" in f then f["summary"] else JStr(""))
      && (TruthyAt(f, "description") && f["description"].JObj? ==> r.description == JStr(AdfText(f["description"])))
      && (!(TruthyAt(f, "description") && f["description"].JObj?) ==> r.description == Get(f, "description"))
      && r.status == Get(ObjectAt(f, "status"), "name")
      && r.assignee == NameIfTruthy(f, "assignee", "displayName")
      && r.reporter == NameIfTruthy(f, "reporter", "displayName")
      && r.priority == NameIfTruthy(f, "priority", "name")
      && r.issueType == Get(ObjectAt(f, "issuetype"), "name")
      && r.project == Get(ObjectAt(f, "project"), "key")
      && r.created == Get(f, "created") && r.updated == Get(f, "updated")
      && r.labels == (if "labels" in f && f["labels"] != JNull then f["labels"] else JArr([]))
  {
    var f := ObjectAt(data, "fields");
    var description := Get(f, "description");
    var description := if Truthy(description) && description.JObj? then JStr(AdfText(description)) else description;
    MakeIssue(GetOr(data, "id", JStr("")), GetOr(data, "key", JStr("")), GetOr(f, "summary", JStr("")),
              description, Get(ObjectAt(f, "status"), "name"),
              NameIfTruthy(f, "assignee", "displayName"), NameIfTruthy(f, "reporter", "displayName"),
              Get(f, "created"), Get(f, "updated"), NameIfTruthy(f, "priority", "name"),
              Get(ObjectAt(f, "issuetype"), "name"), Get(ObjectAt(f, "project"), "key"),
              GetOr(f, "labels", JArr([])))
  }

  /** `_get_user_name` is defined on u: `str(user_data)` of a non-empty list
      is not modelled. */
  predicate UserNameDefined(u: Json)
  {
    !(u.JArr? && Truthy(u))
  }

  /** `_get_user_name`: None for a falsy value, a string unchanged, for an
      object its `name`, then `displayName`, then `email`; `str()` of a
      number or of True. */
  function GetUserName(u: Json): (r: Json)
    requires UserNameDefined(u)
    ensures !Truthy(u) ==> r == JNull
    ensures Truthy(u) && u.JStr? ==> r == u
    ensures Truthy(u) && u.JObj? ==> r == Alias(u.fields, ["name", "displayName", "email"], None)
    ensures Truthy(u) && u.JInt? ==> r == JStr(IntToString(u.i))
    ensures Truthy(u) && u.JBool? ==> r == JStr("True")
  {
    if !Truthy(u) then JNull
    else match u
      case JStr(_) => u
      case JObj(m) => Alias(m, ["name", "displayName", "email"], None)
      case JInt(i) => JStr(IntToString(i))
      case JBool(_) => JStr("True")
  }

  /** `_normalize_custom_issue` runs without raising on data. */
  predicate CustomIssueDefined(data: map<string, Json>)
  {
    UserNameDefined(Get(data, "assignee")) && UserNameDefined(Alias(data, ["reporter", "created_by"], None))
  }

  /** `_normalize_custom_issue` (its meaning is CustomIssueMeaning). */
  function NormalizeCustomIssue(data: map<string, Json>): (r: JiraIssue)
    requires CustomIssueDefined(data)
    ensures r.labels != JNull
  {
    MakeIssue(Alias(data, ["id", "issue_id"], Some(JStr(""))),
              Alias(data, ["key", "id", "number"], Some(JStr(""))),
              Alias(data, ["title", "summary", "name"], Some(JStr(""))),
              Alias(data, ["description", "body", "content"], None),
              Alias(data, ["status", "state"], None),
              GetUserName(Get(data, "assignee")),
              GetUserName(Alias(data, ["reporter", "created_by"], None)),
              Alias(data, ["created", "created_at"], None),
              Alias(data, ["updated", "updated_at"], None),
              Get(data, "priority"),
              Alias(data, ["type", "issue_type"], Some(JStr("Task"))),
              Alias(data, ["project", "project_key"], None),
              Alias(data, ["labels", "tags"], Some(JArr([]))))
  }

  /** Each field of a custom issue is the first truthy value among its
      aliases, in order, with the default '' for id, key and summary, 'Task'
      for the issue type, [] for the labels, and otherwise whatever the last
      alias holds (None when it is absent); the people go through
      `_get_user_name`, the reporter falling back to `created_by`. */
  lemma CustomIssueMeaning(data: map<string, Json>)
    requires CustomIssueDefined(data)
    ensures var r := NormalizeCustomIssue(data);
      && PicksAlias(data, ["id", "issue_id"], Some(JStr("")), r.id)
      && PicksAlias(data, ["key", "id", "number"], Some(JStr("")), r.key)
      && PicksAlias(data, ["title", "summary", "name"], Some(JStr("")), r.summary)
      && PicksAlias(data, ["description", "body", "content"], None, r.description)
      && PicksAlias(data, ["status", "state"], None, r.status)
      && r.assignee == GetUserName(Get(data, "assignee"))
      && PicksAlias(data, ["reporter", "created_by"], None, Alias(data, ["reporter", "created_by"], None))
      && r.reporter == GetUserName(Alias(data, ["reporter", "created_by"], None))
      && PicksAlias(data, ["created", "created_at"], None, r.created)
      && PicksAlias(data, ["updated", "updated_at"], None, r.updated)
      && r.priority == Get(data, "priority")
      && PicksAlias(data, ["type", "issue_type"], Some(JStr("Task")), r.issueType)
      && PicksAlias(data, ["project", "project_key"], None, r.project)
      && PicksAlias(data, ["labels", "tags"], Some(JArr([])), r.labels)
  {
    AliasMeaning(data, ["id", "issue_id"], Some(JStr("")));
    AliasMeaning(data, ["key", "id", "number"], Some(JStr("")));
    AliasMeaning(data, ["title", "summary", "name"], Some(JStr("")));
    AliasMeaning(data, ["description", "body", "content"], None);
    AliasMeaning(data, ["status", "state"], None);
    AliasMeaning(data, ["reporter", "created_by"], None);
    AliasMeaning(data, ["created", "created_at"], None);
    AliasMeaning(data, ["updated", "updated_at"], None);
    AliasMeaning(data, ["type", "issue_type"], Some(JStr("Task")));
    AliasMeaning(data, ["project", "project_key"], None);
    AliasMeaning(data, ["labels", "tags"], Some(JArr([])));
  }

  /** `_normalize_jira_comment` runs without raising on data. */
  ghost predicate JiraCommentDefined(data: map<string, Json>)
  {
    AbsentOrObject(data, "author") && AdfDefined(GetOr(data, "body", JObj(map[])))
  }

  /** `_normalize_jira_comment`: a body in the document format is replaced by
      its text, and a falsy body becomes ''; the author's display name
      defaults to 'Unknown'. */
  function NormalizeJiraComment(data: map<string, Json>): (r: JiraComment)
    requires JiraCommentDefined(data)
    ensures r.id == (if "id" in data then data["id"] else JStr(""))
    ensures var a := ObjectAt(data, "author");
      r.author == (if "displayName" in a then a["displayName"] else JStr("Unknown"))
    ensures "body" !in data ==> r.body == JStr("")
    ensures "body" in data && data["body"].JObj? ==> r.body == JStr(AdfText(data["body"]))
    ensures "body" in data && !data["body"].JObj? ==>
      r.body == (if Truthy(data["body"]) then data["body"] else JStr(""))
    ensures r.created == (if "created" in data then data["created"] else JStr(""))
    ensures r.updated == Get(data, "updated")
  {
    var body := GetOr(data, "body", JObj(map[]));
    var body := if body.JObj? then JStr(AdfText(body)) else body;
    JiraComment(GetOr(data, "id", JStr("")),
                GetOr(ObjectAt(data, "author"), "displayName", JStr("Unknown")),
                if Truthy(body) then body else JStr(""),
                GetOr(data, "created", JStr("")),
                Get(data, "updated"))
  }

  /** `_normalize_custom_comment` (its meaning is CustomCommentMeaning). */
  function NormalizeCustomComment(data: map<string, Json>): JiraComment
  {
    JiraComment(Alias(data, ["id", "comment_id"], Some(JStr(""))),
                Alias(data, ["author", "user", "created_by"], Some(JStr("Unknown"))),
                Alias(data, ["comment", "body", "content"], Some(JStr(""))),
                Alias(data, ["created", "created_at"], Some(JStr(""))),
                Alias(data, ["updated", "updated_at"], None))
  }

  /** Each field of a custom comment is the first truthy value among its
      aliases, with the defaults '' and 'Unknown'. */
  lemma CustomCommentMeaning(data: map<string, Json>)
    ensures var r := NormalizeCustomComment(data);
      && PicksAlias(data, ["id", "comment_id"], Some(JStr("")), r.id)
      && PicksAlias(data, ["author", "user", "created_by"], Some(JStr("Unknown")), r.author)
      && PicksAlias(data, ["comment", "body", "content"], Some(JStr("")), r.body)
      && PicksAlias(data, ["created", "created_at"], Some(JStr("")), r.created)
      && PicksAlias(data, ["updated", "updated_at"], None, r.updated)
  {
    AliasMeaning(data, ["id", "comment_id"], Some(JStr("")));
    AliasMeaning(data, ["author", "user", "created_by"], Some(JStr("Unknown")));
    AliasMeaning(data, ["comment", "body", "content"], Some(JStr("")));
    AliasMeaning(data, ["created", "created_at"], Some(JStr("")));
    AliasMeaning(data, ["updated", "updated_at"], None);
  }

  /** `_normalize_jira_project`: presence-based lookups, and the lead's
      display name when a lead is given. */
  function NormalizeJiraProject(data: map<string, Json>): (r: JiraProject)
    requires FalsyOrObject(data, "lead")
    ensures r.id == (if "id" in data then data["id"] else JStr(""))
    ensures r.key == (if "key" in data then data["key"] else JStr(""))
    ensures r.name == (if "name" in data then data["name"] else JStr(""))
    ensures r.description == Get(data, "description")
    ensures r.lead == NameIfTruthy(data, "lead", "displayName")
  {
    JiraProject(GetOr(data, "id", JStr("")), GetOr(data, "key", JStr("")), GetOr(data, "name", JStr("")),
                Get(data, "description"), NameIfTruthy(data, "lead", "displayName"))
  }

  /** `_normalize_custom_project` (its meaning is CustomProjectMeaning). */
  function NormalizeCustomProject(data: map<string, Json>): JiraProject
    requires UserNameDefined(Alias(data, ["lead", "owner"], None))
  {
    JiraProject(Alias(data, ["id", "project_id"], Some(JStr(""))),
                Alias(data, ["key", "code", "id"], Some(JStr(""))),
                Alias(data, ["name", "title"], Some(JStr(""))),
                Get(data, "description"),
                GetUserName(Alias(data, ["lead", "owner"], None)))
  }

  /** Each field of a custom project is the first truthy value among its
      aliases; the lead (or owner) goes through `_get_user_name`. */
  lemma CustomProjectMeaning(data: map<string, Json>)
    requires UserNameDefined(Alias(data, ["lead", "owner"], None))
    ensures var r := NormalizeCustomProject(data);
      && PicksAlias(data, ["id", "project_id"], Some(JStr("")), r.id)
      && PicksAlias(data, ["key", "code", "id"], Some(JStr("")), r.key)
      && PicksAlias(data, ["name", "title"], Some(JStr("")), r.name)
      && r.description == Get(data, "description")
      && PicksAlias(data, ["lead", "owner"], None, Alias(data, ["lead", "owner"], None))
      && r.lead == GetUserName(Alias(data, ["lead", "owner"], None))
  {
    AliasMeaning(data, ["id", "project_id"], Some(JStr("")));
    AliasMeaning(data, ["key", "code", "id"], Some(JStr("")));
    AliasMeaning(data, ["name", "title"], Some(JStr("")));
    AliasMeaning(data, ["lead", "owner"], None);
  }

  /** `_normalize_jira_transition`: the target status is the name of the
      nested `to` object. */
  function NormalizeJiraTransition(data: map<string, Json>): (r: JiraTransition)
    requires AbsentOrObject(data, "to")
    ensures r.id == (if "id" in data then data["id"] else JStr(""))
    ensures r.name == (if "name" in data then data["name"] else JStr(""))
    ensures var t := ObjectAt(data, "to"); r.toStatus == (if "name" in t then t["name"] else JStr(""))
  {
    JiraTransition(GetOr(data, "id", JStr("")), GetOr(data, "name", JStr("")),
                   GetOr(ObjectAt(data, "to"), "name", JStr("")))
  }

  /** `_normalize_custom_transition` (its meaning is CustomTransitionMeaning). */
  function NormalizeCustomTransition(data: map<string, Json>): JiraTransition
  {
    JiraTransition(Alias(data, ["id", "transition_id"], Some(JStr(""))),
                   Alias(data, ["name", "status", "to_status"], Some(JStr(""))),
                   Alias(data, ["to_status", "target_status", "name"], Some(JStr(""))))
  }

  /** The name of a custom transition falls back to the status names, and its
      target status falls back to the name. */
  lemma CustomTransitionMeaning(data: map<string, Json>)
    ensures var r := NormalizeCustomTransition(data);
      && PicksAlias(data, ["id", "transition_id"], Some(JStr("")), r.id)
      && PicksAlias(data, ["name", "status", "to_status"], Some(JStr("")), r.name)
      && PicksAlias(data, ["to_status", "target_status", "name"], Some(JStr("")), r.toStatus)
  {
    AliasMeaning(data, ["id", "transition_id"], Some(JStr("")));
    AliasMeaning(data, ["name", "status", "to_status"], Some(JStr("")));
    AliasMeaning(data, ["to_status", "target_status", "name"], Some(JStr("")));
  }

  /** A custom transition that gives only a name moves to the status of
      that name. */
  lemma NameOnlyTransition(data: map<string, Json>)
    requires TruthyAt(data, "name")
    requires !TruthyAt(data, "status") && !TruthyAt(data, "to_status") && !TruthyAt(data, "target_status")
    ensures NormalizeCustomTransition(data).name == data["name"]
    ensures NormalizeCustomTransition(data).toStatus == data["name"]
  {
    AliasAt(data, ["name", "status", "to_status"], Some(JStr("")), 0);
    AliasAt(data, ["to_status", "target_status", "name"], Some(JStr("")), 2);
  }

  /** The list the custom search response carries: the first of `issues`,
      `data` and `results` that is present (even when it is null or empty),
      else the empty list. */
  function IssueList(data: map<string, Json>): Json
  {
    FirstPresent(data, ["issues", "data", "results"], JArr([]))
  }

  /** The custom search response can be normalised: its list is a list of
      objects, each a normalisable custom issue, or an empty dict or string,
      which Python iterates as nothing. */
  predicate CustomSearchDefined(data: map<string, Json>)
  {
    var l := IssueList(data);
    ListLike(l) && forall i :: 0 <= i < |Items(l)| ==> Items(l)[i].JObj? && CustomIssueDefined(Items(l)[i].fields)
  }

  /** `_normalize_custom_search_result`: the issues are normalised in order,
      the total is the `total` field when it is present and otherwise the
      number of issues, and the paging arguments are echoed. */
  function NormalizeCustomSearchResult(data: map<string, Json>, maxResults: int, startAt: int): (r: JiraSearchResult)
    requires CustomSearchDefined(data)
    ensures var items := Items(IssueList(data));
      && |r.issues| == |items|
      && forall i :: 0 <= i < |items| ==> r.issues[i] == NormalizeCustomIssue(items[i].fields)
    ensures "total" in data ==> r.total == data["total"]
    ensures "total" !in data ==> r.total == JInt(|r.issues|)
    ensures r.maxResults == maxResults && r.startAt == startAt
  {
    var items := Items(IssueList(data));
    JiraSearchResult(seq(|items|, i requires 0 <= i < |items| => NormalizeCustomIssue(items[i].fields)),
                     GetOr(data, "total", JInt(|items|)), maxResults, startAt)
  }

  /** A present `issues` key wins over `data` and `results`, however empty. */
  lemma IssuesKeyWins(data: map<string, Json>, maxResults: int, startAt: int)
    requires "issues" in data && data["issues"] == JArr([])
    ensures CustomSearchDefined(data)
    ensures NormalizeCustomSearchResult(data, maxResults, startAt).issues == []
  {
  }

  /** An empty dict under `issues` is iterated as nothing: no issues, and a
      total of 0 when the response has no `total`. */
  lemma EmptyObjectIssuesAreNone(data: map<string, Json>, maxResults: int, startAt: int)
    requires "issues" in data && data["issues"] == JObj(map[]) && "total" !in data
    ensures CustomSearchDefined(data)
    ensures var r := NormalizeCustomSearchResult(data, maxResults, startAt);
      r.issues == [] && r.total == JInt(0)
  {
  }

  // ----- Listing endpoints (custom branches) -----

  /** A listing response carries a list of objects under `key`, else
      under `data`, else nothing (the empty list); an empty dict or string
      there is iterated as nothing. */
  predicate ListingDefined(data: map<string, Json>, key: string)
  {
    var l := FirstPresent(data, [key, "data"], JArr([]));
    ListLike(l) && forall i :: 0 <= i < |Items(l)| ==> Items(l)[i].JObj?
  }

  /** The comments get_comments returns against the custom API, normalised in order. */
  function CustomComments(data: map<string, Json>): (r: seq<JiraComment>)
    requires ListingDefined(data, "comments")
    ensures var items := Items(FirstPresent(data, ["comments", "data"], JArr([])));
      |r| == |items| && forall i :: 0 <= i < |items| ==> r[i] == NormalizeCustomComment(items[i].fields)
  {
    var items := Items(FirstPresent(data, ["comments", "data"], JArr([])));
    seq(|items|, i requires 0 <= i < |items| => NormalizeCustomComment(items[i].fields))
  }

  /** The projects get_projects returns against the custom API, normalised in order. */
  function CustomProjects(data: map<string, Json>): (r: seq<JiraProject>)
    requires ListingDefined(data, "projects")
    requires var items := Items(FirstPresent(data, ["projects", "data"], JArr([])));
      forall i :: 0 <= i < |items| ==> UserNameDefined(Alias(items[i].fields, ["lead", "owner"], None))
    ensures var items := Items(FirstPresent(data, ["projects", "data"], JArr([])));
      |r| == |items| && forall i :: 0 <= i < |items| ==> r[i] == NormalizeCustomProject(items[i].fields)
  {
    var items := Items(FirstPresent(data, ["projects", "data"], JArr([])));
    seq(|items|, i requires 0 <= i < |items| => NormalizeCustomProject(items[i].fields))
  }

  /** The transitions get_transitions returns against the custom API, normalised in order. */
  function CustomTransitions(data: map<string, Json>): (r: seq<JiraTransition>)
    requires ListingDefined(data, "transitions")
    ensures var items := Items(FirstPresent(data, ["transitions", "data"], JArr([])));
      |r| == |items| && forall i :: 0 <= i < |items| ==> r[i] == NormalizeCustomTransition(items[i].fields)
  {
    var items := Items(FirstPresent(data, ["transitions", "data"], JArr([])));
    seq(|items|, i requires 0 <= i < |items| => NormalizeCustomTransition(items[i].fields))
  }

  /** An explicit null under the listing key is kept by the presence-based
      lookup, so the response is not a list and cannot be iterated. */
  lemma NullListingIsRejected(data: map<string, Json>, key: string)
    requires key in data && data[key] == JNull
    ensures !ListingDefined(data, key)
  {
  }

  // ----- Request payloads -----

  /** The object `{'name': v}` the standard API expects for a named reference. */
  function Named(v: Json): Json
  {
    JObj(map["name" := v])
  }

  /** Entry `sent` of the request f carries v exactly when the keyword
      argument `arg` is truthy, and is absent otherwise. */
  ghost predicate SentIfTruthy(f: map<string, Json>, sent: string, kwargs: map<string, Json>, arg: string, v: Json)
  {
    (sent in f <==> TruthyAt(kwargs, arg)) && (sent in f ==> f[sent] == v)
  }

  /** The optional fields that both create_issue and update_issue add to a
      standard-API request, each only when its keyword argument is truthy:
      the description as a one-paragraph document, priority and assignee as
      named references, and the labels as given. */
  ghost predicate HasOptionalFields(f: map<string, Json>, kwargs: map<string, Json>)
  {
    && SentIfTruthy(f, "description", kwargs, "description", ParagraphDoc(Get(kwargs, "description")))
    && SentIfTruthy(f, "priority", kwargs, "priority", Named(Get(kwargs, "priority")))
    && SentIfTruthy(f, "assignee", kwargs, "assignee", Named(Get(kwargs, "assignee")))
    && SentIfTruthy(f, "labels", kwargs, "labels", Get(kwargs, "labels"))
  }

  /** f is the `fields` object of a standard-API create_issue request: the
      project reference, the summary and the issue type (default 'Task'),
      then the optional fields, and nothing else. */
  ghost predicate IsCreateFields(projectKey: string, summary: string, kwargs: map<string, Json>, f: map<string, Json>)
  {
    && f.Keys <= {"project", "summary", "issuetype", "description", "priority", "assignee", "labels"}
    && "project" in f && f["project"] == JObj(map["key" := JStr(projectKey)])
    && "summary" in f && f["summary"] == JStr(summary)
    && "issuetype" in f && f["issuetype"] == Named(GetOr(kwargs, "issue_type", JStr("Task")))
    && HasOptionalFields(f, kwargs)
  }

  /** f is the `fields` object of a standard-API update_issue request: one
      entry per truthy keyword argument, and nothing else. */
  ghost predicate IsUpdateFields(kwargs: map<string, Json>, f: map<string, Json>)
  {
    && f.Keys <= {"summary", "description", "priority", "assignee", "labels"}
    && SentIfTruthy(f, "summary", kwargs, "summary", Get(kwargs, "summary"))
    && HasOptionalFields(f, kwargs)
  }

  /** create_issue against the standard API: the payload starts from the
      mandatory fields and gains each optional field in turn. */
  method CreateIssuePayload(projectKey: string, summary: string, kwargs: map<string, Json>)
    returns (payload: map<string, Json>)
    ensures payload.Keys == {"fields"} && payload["fields"].JObj?
    ensures IsCreateFields(projectKey, summary, kwargs, payload["fields"].fields)
  {
    var fields := map["project" := JObj(map["key" := JStr(projectKey)]),
                      "summary" := JStr(summary),
                      "issuetype" := Named(GetOr(kwargs, "issue_type", JStr("Task")))];
    if TruthyAt(kwargs, "description") {
      fields := fields["description" := ParagraphDoc(kwargs["description"])];
    }
    if TruthyAt(kwargs, "priority") {
      fields := fields["priority" := Named(kwargs["priority"])];
    }
    if TruthyAt(kwargs, "assignee") {
      fields := fields["assignee" := Named(kwargs["assignee"])];
    }
    if TruthyAt(kwargs, "labels") {
      fields := fields["labels" := kwargs["labels"]];
    }
    payload := map["fields" := JObj(fields)];
  }

  /** update_issue against the standard API: `fields` gains one entry per
      truthy keyword argument. */
  method UpdateIssuePayload(kwargs: map<string, Json>) returns (payload: map<string, Json>)
    ensures payload.Keys == {"fields"} && payload["fields"].JObj?
    ensures IsUpdateFields(kwargs, payload["fields"].fields)
  {
    var fields: map<string, Json> := map[];
    if TruthyAt(kwargs, "summary") {
      fields := fields["summary" := kwargs["summary"]];
    }
    if TruthyAt(kwargs, "description") {
      fields := fields["description" := ParagraphDoc(kwargs["description"])];
    }
    if TruthyAt(kwargs, "assignee") {
      fields := fields["assignee" := Named(kwargs["assignee"])];
    }
    if TruthyAt(kwargs, "priority") {
      fields := fields["priority" := Named(kwargs["priority"])];
    }
    if TruthyAt(kwargs, "labels") {
      fields := fields["labels" := kwargs["labels"]];
    }
    payload := map["fields" := JObj(fields)];
  }

  /** A standard-API issue whose fields are those create_issue sent gives
      back, once normalised, the summary, the project key, the issue type,
      the priority, the labels (or [] when none were sent) and, through the
      document round trip, the description text. The assignee is not given
      back: it is sent as `name` but read as `displayName`. */
  lemma CreatedIssueRoundTrip(projectKey: string, summary: string, kwargs: map<string, Json>, f: map<string, Json>)
    requires IsCreateFields(projectKey, summary, kwargs, f)
    requires AbsentOrString(kwargs, "description")
    ensures JiraIssueDefined(map["fields" := JObj(f)])
    ensures var r := NormalizeJiraIssue(map["fields" := JObj(f)]);
      && r.summary == JStr(summary)
      && r.project == JStr(projectKey)
      && r.issueType == GetOr(kwargs, "issue_type", JStr("Task"))
      && r.description == (if TruthyAt(kwargs, "description") then kwargs["description"] else JNull)
      && r.priority == (if TruthyAt(kwargs, "priority") then kwargs["priority"] else JNull)
      && r.assignee == JNull
      && r.labels == (if TruthyAt(kwargs, "labels") then kwargs["labels"] else JArr([]))
  {
    var data := map["fields" := JObj(f)];
    assert ObjectAt(data, "fields") == f;
    CreatedIssueDefined(projectKey, summary, kwargs, f);
    CreatedDescription(projectKey, summary, kwargs, f);
    CreatedNamedFields(projectKey, summary, kwargs, f);
  }

  /** The fields sent as `{"name": ...}` objects or as plain values read
      back as sent; the assignee's `displayName` was never sent. */
  lemma CreatedNamedFields(projectKey: string, summary: string, kwargs: map<string, Json>, f: map<string, Json>)
    requires IsCreateFields(projectKey, summary, kwargs, f)
    ensures FalsyOrObject(f, "priority") && FalsyOrObject(f, "assignee")
    ensures NameIfTruthy(f, "priority", "name") == (if TruthyAt(kwargs, "priority") then kwargs["priority"] else JNull)
    ensures NameIfTruthy(f, "assignee", "displayName") == JNull
    ensures Get(ObjectAt(f, "issuetype"), "name") == GetOr(kwargs, "issue_type", JStr("Task"))
    ensures Get(ObjectAt(f, "project"), "key") == JStr(projectKey)
    ensures (if "labels" in f && f["labels"] != JNull then f["labels"] else JArr([])) ==
      (if TruthyAt(kwargs, "labels") then kwargs["labels"] else JArr([]))
  {
    if TruthyAt(kwargs, "priority") {
      var m := f["priority"].fields;
      assert m == map["name" := kwargs["priority"]];
      assert "name" in m && m != map[];
    }
  }

  lemma CreatedIssueDefined(projectKey: string, summary: string, kwargs: map<string, Json>, f: map<string, Json>)
    requires IsCreateFields(projectKey, summary, kwargs, f)
    requires AbsentOrString(kwargs, "description")
    ensures JiraIssueDefined(map["fields" := JObj(f)])
  {
    assert ObjectAt(map["fields" := JObj(f)], "fields") == f;
    if TruthyAt(kwargs, "description") {
      ParagraphDocRoundTrip(kwargs["description"].s);
    }
  }

  /** The description sent as a one-paragraph document is read back as its
      text; none is sent for a falsy one, which reads back as None. */
  lemma CreatedDescription(projectKey: string, summary: string, kwargs: map<string, Json>, f: map<string, Json>)
    requires IsCreateFields(projectKey, summary, kwargs, f)
    requires AbsentOrString(kwargs, "description")
    ensures AdfDefined(Get(f, "description"))
    ensures var d := Get(f, "description");
      (if Truthy(d) && d.JObj? then JStr(AdfText(d)) else d) ==
      (if TruthyAt(kwargs, "description") then kwargs["description"] else JNull)
  {
    if TruthyAt(kwargs, "description") {
      ParagraphDocRoundTrip(kwargs["description"].s);
    }
  }

  /** A comment whose body is the document add_comment sent normalises back
      to the comment text. */
  lemma CommentRoundTrip(comment: string, data: map<string, Json>)
    requires AbsentOrObject(data, "author")
    ensures JiraCommentDefined(data["body" := ParagraphDoc(JStr(comment))])
    ensures NormalizeJiraComment(data["body" := ParagraphDoc(JStr(comment))]).body == JStr(comment)
  {
    ParagraphDocRoundTrip(comment);
  }

  // ----- Custom-API payloads -----

  /** p is the custom-API create_issue request: the project key, the
      summary as `title`, the description (default ''), the issue type
      lower-cased (default 'task'), priority, assignee and labels (default
      []). `.lower()` on a non-string type raises, so the type is required to
      be a string when given. */
  ghost predicate IsCustomCreate(projectKey: string, summary: string, kwargs: map<string, Json>, p: map<string, Json>)
    requires AbsentOrString(kwargs, "issue_type")
  {
    && p.Keys == {"project", "title", "description", "type", "priority", "assignee", "labels"}
    && p["project"] == JStr(projectKey)
    && p["title"] == JStr(summary)
    && p["description"] == GetOr(kwargs, "description", JStr(""))
    && p["type"] == JStr(LowerStr(GetOr(kwargs, "issue_type", JStr("Task")).s))
    && p["priority"] == Get(kwargs, "priority")
    && p["assignee"] == Get(kwargs, "assignee")
    && p["labels"] == GetOr(kwargs, "labels", JArr([]))
  }

  /** The dictionary literal of the custom-API create_issue request. */
  function CustomCreatePayload(projectKey: string, summary: string, kwargs: map<string, Json>): (p: map<string, Json>)
    requires AbsentOrString(kwargs, "issue_type")
    ensures IsCustomCreate(projectKey, summary, kwargs, p)
  {
    map["project" := JStr(projectKey),
        "title" := JStr(summary),
        "description" := GetOr(kwargs, "description", JStr("")),
        "type" := JStr(LowerStr(GetOr(kwargs, "issue_type", JStr("Task")).s)),
        "priority" := Get(kwargs, "priority"),
        "assignee" := Get(kwargs, "assignee"),
        "labels" := GetOr(kwargs, "labels", JArr([]))]
  }

  /** p is a custom-API update_issue request: one entry per truthy keyword
      argument, the summary travelling as `title`, and nothing else. */
  ghost predicate IsCustomUpdate(kwargs: map<string, Json>, p: map<string, Json>)
  {
    && p.Keys <= {"title", "description", "assignee", "priority", "labels"}
    && SentIfTruthy(p, "title", kwargs, "summary", Get(kwargs, "summary"))
    && SentIfTruthy(p, "description", kwargs, "description", Get(kwargs, "description"))
    && SentIfTruthy(p, "assignee", kwargs, "assignee", Get(kwargs, "assignee"))
    && SentIfTruthy(p, "priority", kwargs, "priority", Get(kwargs, "priority"))
    && SentIfTruthy(p, "labels", kwargs, "labels", Get(kwargs, "labels"))
  }

  /** update_issue against the custom API, built one argument at a time. */
  method CustomUpdateIssuePayload(kwargs: map<string, Json>) returns (payload: map<string, Json>)
    ensures IsCustomUpdate(kwargs, payload)
  {
    payload := map[];
    if TruthyAt(kwargs, "summary") {
      payload := payload["title" := kwargs["summary"]];
    }
    if TruthyAt(kwargs, "description") {
      payload := payload["description" := kwargs["description"]];
    }
    if TruthyAt(kwargs, "assignee") {
      payload := payload["assignee" := kwargs["assignee"]];
    }
    if TruthyAt(kwargs, "priority") {
      payload := payload["priority" := kwargs["priority"]];
    }
    if TruthyAt(kwargs, "labels") {
      payload := payload["labels" := kwargs["labels"]];
    }
  }

  /** A custom issue echoing an update normalises back to the new summary:
      `title` is the first alias the normaliser reads. */
  lemma CustomUpdatedSummary(kwargs: map<string, Json>, p: map<string, Json>)
    requires IsCustomUpdate(kwargs, p) && TruthyAt(kwargs, "summary")
    requires CustomIssueDefined(p)
    ensures NormalizeCustomIssue(p).summary == kwargs["summary"]
  {
    AliasAt(p, ["title", "summary", "name"], Some(JStr("")), 0);
  }

  /** The type a custom issue echoing a create request reads back: the
      lower-cased type that was sent, or 'Task' when it is empty (so an
      explicit '' comes back as 'Task', not as 'task'). */
  lemma CustomCreatedType(projectKey: string, summary: string, kwargs: map<string, Json>, p: map<string, Json>)
    requires AbsentOrString(kwargs, "issue_type") && IsCustomCreate(projectKey, summary, kwargs, p)
    ensures Alias(p, ["type", "issue_type"], Some(JStr("Task"))) ==
      var t := LowerStr(GetOr(kwargs, "issue_type", JStr("Task")).s); JStr(if t == "" then "Task" else t)
  {
    if Truthy(p["type"]) {
      AliasAt(p, ["type", "issue_type"], Some(JStr("Task")), 0);
    } else {
      AliasFallback(p, ["type", "issue_type"], Some(JStr("Task")));
    }
  }

  /** The description a custom issue echoing a create request reads back:
      the one sent when it is truthy, and None otherwise (the '' sent for a
      missing description is skipped, and neither `body` nor `content` is
      present). */
  lemma CustomCreatedDescription(projectKey: string, summary: string, kwargs: map<string, Json>, p: map<string, Json>)
    requires AbsentOrString(kwargs, "issue_type") && IsCustomCreate(projectKey, summary, kwargs, p)
    ensures Alias(p, ["description", "body", "content"], None) ==
      (if TruthyAt(kwargs, "description") then kwargs["description"] else JNull)
  {
    if TruthyAt(kwargs, "description") {
      AliasAt(p, ["description", "body", "content"], None, 0);
    } else {
      AliasFallback(p, ["description", "body", "content"], None);
    }
  }

  /** The summary sent as title reads back, an empty one through the ''
      default; the project key reads back, an empty one as None. */
  lemma CustomCreatedSummaryProject(projectKey: string, summary: string, kwargs: map<string, Json>, p: map<string, Json>)
    requires AbsentOrString(kwargs, "issue_type") && IsCustomCreate(projectKey, summary, kwargs, p)
    ensures Alias(p, ["title", "summary", "name"], Some(JStr(""))) == JStr(summary)
    ensures Alias(p, ["project", "project_key"], None) == (if projectKey != "" then JStr(projectKey) else JNull)
  {
    if summary != "" {
      AliasAt(p, ["title", "summary", "name"], Some(JStr("")), 0);
    } else {
      AliasFallback(p, ["title", "summary", "name"], Some(JStr("")));
    }
    if projectKey != "" {
      AliasAt(p, ["project", "project_key"], None, 0);
    } else {
      AliasFallback(p, ["project", "project_key"], None);
    }
  }

  /** A custom issue echoing a create request normalises back to the summary
      (an empty one through the '' default), the project key (an empty one,
      skipped by the alias chain, as None), the lower-cased issue type (or
      'Task' when that is empty), and the description and the labels when
      they are truthy, otherwise None and []. */
  lemma CustomCreatedIssueRoundTrip(projectKey: string, summary: string, kwargs: map<string, Json>, p: map<string, Json>)
    requires AbsentOrString(kwargs, "issue_type") && IsCustomCreate(projectKey, summary, kwargs, p)
    requires UserNameDefined(Get(kwargs, "assignee"))
    ensures CustomIssueDefined(p)
    ensures var r := NormalizeCustomIssue(p);
      && r.summary == JStr(summary)
      && r.project == (if projectKey != "" then JStr(projectKey) else JNull)
      && r.issueType == (var t := LowerStr(GetOr(kwargs, "issue_type", JStr("Task")).s);
                         JStr(if t == "" then "Task" else t))
      && r.description == (if TruthyAt(kwargs, "description") then kwargs["description"] else JNull)
      && r.labels == (if TruthyAt(kwargs, "labels") then kwargs["labels"] else JArr([]))
  {
    AliasFallback(p, ["reporter", "created_by"], None);
    CustomCreatedSummaryProject(projectKey, summary, kwargs, p);
    CustomCreatedType(projectKey, summary, kwargs, p);
    CustomCreatedDescription(projectKey, summary, kwargs, p);
    if TruthyAt(kwargs, "labels") {
      AliasAt(p, ["labels", "tags"], Some(JArr([])), 0);
    } else {
      AliasFallback(p, ["labels", "tags"], Some(JArr([])));
    }
  }
}
