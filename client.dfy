/**
 * The Notion client wrapper of src/notion/client.ts: one request builder per
 * API operation, the custom-feature flags, and the custom operations gated by
 * them.
 *
 * Each wrapper method of the source builds a request and returns
 * `response.data` of `ApiClient.request`; here the builders are functions
 * returning the request options, and `Dispatch` is the shared "send it and
 * return the data" step. Optional arguments are `Option`s; an optional field
 * or query parameter is included only when its argument is truthy.
 */
module Notion {
  import opened Wrappers
  import opened Json
  import Api

  const BaseUrl := "https://api.notion.com/v1"
  const NotionVersion := "2022-06-28"
  const FeatureNotAvailable := "feature_not_available"

  /** The headers every request carries. */
  function HeadersFor(apiToken: string): seq<(string, string)> {
    [("Authorization", "Bearer " + apiToken), ("Content-Type", "application/json"), ("Notion-Version", NotionVersion)]
  }

  /** The flags the constructor sets: workflows off; CSV import, CSV export and recurring tasks on. */
  const DefaultFeatures: map<string, bool> :=
    map["workflows" := false, "csv_import" := true, "csv_export" := true, "recurring_tasks" := true]

  /** `customFeatures.get(name) || false`. */
  function FeatureFlag(features: map<string, bool>, name: string): (on: bool)
    ensures on <==> name in features && features[name]
  {
    if name in features then features[name] else false
  }

  lemma DefaultFeatureFlags(name: string)
    ensures FeatureFlag(DefaultFeatures, name) <==> name in {"csv_import", "csv_export", "recurring_tasks"}
    ensures !FeatureFlag(DefaultFeatures, "workflows")
  {
  }

  /** The replies of the custom operations that are modelled. */
  datatype Reply =
    | ErrorReply(status: int, code: string, message: string)
    | ImportReply(totalRows: nat, importedRows: nat, errors: seq<string>)
    | WorkflowSimulated(title: string)

  /** The refusal a custom operation returns when its feature is off: status 400, `feature_not_available`. */
  function Unavailable(message: string): Reply {
    ErrorReply(400, FeatureNotAvailable, message)
  }

  // ---------------------------------------------------------------------------
  // Query parameters

  /** `if (arg) query.key = arg`, for a query whose keys are all distinct. */
  function QueryIf(q: Api.Query, cond: bool, key: string, value: string): Api.Query {
    if cond then q + [(key, Some(value))] else q
  }

  /** The value of `key` in a query (the last entry for a key wins, as in a record). */
  function QueryValue(q: Api.Query, key: string): Option<string> {
    if q == [] then None
    else if q[|q| - 1].0 == key then q[|q| - 1].1
    else QueryValue(q[..|q| - 1], key)
  }

  lemma QueryIfValue(q: Api.Query, cond: bool, key: string, value: string, k: string)
    ensures QueryValue(QueryIf(q, cond, key, value), k) == if cond && k == key then Some(value) else QueryValue(q, k)
  {
    if cond {
      assert (q + [(key, Some(value))])[..|q|] == q;
    }
  }

  /**
   * `start_cursor` only when truthy, then `page_size` as decimal text only
   * when truthy (so a page size of 0 is left out), after `prefix`.
   */
  function PageQuery(prefix: Api.Query, startCursor: Option<string>, pageSize: Option<int>): Api.Query {
    var q := QueryIf(prefix, GivenString(startCursor), "start_cursor", startCursor.GetOr(""));
    QueryIf(q, GivenNumber(pageSize), "page_size", IntToDecimal(pageSize.GetOr(0)))
  }

  /** Reading the pagination back: the cursor, and the page size parsed from its decimal text. */
  function ReadPagination(q: Api.Query): (Option<string>, Option<int>) {
    var size := match QueryValue(q, "page_size")
      case Some(text) => ParseDecimal(text)
      case None => None;
    (QueryValue(q, "start_cursor"), size)
  }

  /**
   * The pagination query is lossless for truthy arguments: reading it back
   * gives the cursor and page size that were given, and nothing for the
   * falsy ones. The prefix comes first, unchanged.
   */
  lemma PaginationRoundTrip(prefix: Api.Query, startCursor: Option<string>, pageSize: Option<int>)
    requires QueryValue(prefix, "start_cursor").None? && QueryValue(prefix, "page_size").None?
    ensures ReadPagination(PageQuery(prefix, startCursor, pageSize))
         == (if GivenString(startCursor) then startCursor else None, if GivenNumber(pageSize) then pageSize else None)
    ensures PageQuery(prefix, startCursor, pageSize)[..|prefix|] == prefix
  {
    var q1 := QueryIf(prefix, GivenString(startCursor), "start_cursor", startCursor.GetOr(""));
    var q := QueryIf(q1, GivenNumber(pageSize), "page_size", IntToDecimal(pageSize.GetOr(0)));
    QueryIfKeepsPrefix(prefix, GivenString(startCursor), "start_cursor", startCursor.GetOr(""));
    QueryIfKeepsPrefix(q1, GivenNumber(pageSize), "page_size", IntToDecimal(pageSize.GetOr(0)));
    assert q[..|prefix|] == q[..|q1|][..|prefix|];
    CursorReadBack(prefix, startCursor, pageSize);
    PageSizeReadBack(prefix, startCursor, pageSize);
  }

  lemma QueryIfKeepsPrefix(q: Api.Query, cond: bool, key: string, value: string)
    ensures |QueryIf(q, cond, key, value)| >= |q| && QueryIf(q, cond, key, value)[..|q|] == q
  {
    if cond {
      assert (q + [(key, Some(value))])[..|q|] == q;
    }
  }

  lemma CursorReadBack(prefix: Api.Query, startCursor: Option<string>, pageSize: Option<int>)
    requires QueryValue(prefix, "start_cursor").None?
    ensures QueryValue(PageQuery(prefix, startCursor, pageSize), "start_cursor") == if GivenString(startCursor) then startCursor else None
  {
    var sc := startCursor.GetOr("");
    var q1 := QueryIf(prefix, GivenString(startCursor), "start_cursor", sc);
    QueryIfValue(prefix, GivenString(startCursor), "start_cursor", sc, "start_cursor");
    QueryIfValue(q1, GivenNumber(pageSize), "page_size", IntToDecimal(pageSize.GetOr(0)), "start_cursor");
  }

  lemma PageSizeReadBack(prefix: Api.Query, startCursor: Option<string>, pageSize: Option<int>)
    requires QueryValue(prefix, "page_size").None?
    ensures ReadPagination(PageQuery(prefix, startCursor, pageSize)).1 == if GivenNumber(pageSize) then pageSize else None
  {
    var ps := IntToDecimal(pageSize.GetOr(0));
    var q1 := QueryIf(prefix, GivenString(startCursor), "start_cursor", startCursor.GetOr(""));
    QueryIfValue(prefix, GivenString(startCursor), "start_cursor", startCursor.GetOr(""), "page_size");
    QueryIfValue(q1, GivenNumber(pageSize), "page_size", ps, "page_size");
    if GivenNumber(pageSize) {
      DecimalRoundTrip(pageSize.value);
    }
  }


  function Request(httpMethod: string, path: string, body: Option<Json>, query: Option<Api.Query>): Api.RequestOptions {
    Api.RequestOptions(httpMethod, path, body, query, None, None)
  }

  // ---------------------------------------------------------------------------
  // Blocks

  /** `PATCH /blocks/{id}/children` with body `{children}`, plus `after` when given. */
  function AppendBlockChildren(blockId: string, children: seq<Json>, after: Option<string>): (r: Api.RequestOptions)
    ensures r.httpMethod == "PATCH" && r.path == "/blocks/" + blockId + "/children" && r.query.None?
    ensures r.body == Some(Obj(AppendBlockChildrenFields(children, after)))
  {
    Request("PATCH", "/blocks/" + blockId + "/children", Some(Obj(AppendBlockChildrenFields(children, after))), None)
  }

  function AppendBlockChildrenFields(children: seq<Json>, after: Option<string>): Fields {
    PutOpt([("children", Arr(children))], "after", StrArg(after))
  }

  /** The append body holds `children`, then `after` exactly when it is non-empty, and no other field. */
  lemma AppendBlockChildrenBody(children: seq<Json>, after: Option<string>, key: string)
    ensures Keys(AppendBlockChildrenFields(children, after)) == ["children"] + if GivenString(after) then ["after"] else []
    ensures Lookup(AppendBlockChildrenFields(children, after), key)
         == if key == "children" then Some(Arr(children))
            else if key == "after" then StrArg(after)
            else None
  {
    var base: Fields := [("children", Arr(children))];
    assert Keys(base) == ["children"];
    if key != "children" && key != "after" {
      assert Lookup(base, key).None?;
    }
  }

  function RetrieveBlock(blockId: string): Api.RequestOptions {
    Request("GET", "/blocks/" + blockId, None, None)
  }

  /** `GET /blocks/{id}/children` with the pagination query. */
  function RetrieveBlockChildren(blockId: string, startCursor: Option<string>, pageSize: Option<int>): (r: Api.RequestOptions)
    ensures r.httpMethod == "GET" && r.path == "/blocks/" + blockId + "/children" && r.body.None?
    ensures r.query == Some(PageQuery([], startCursor, pageSize))
  {
    Request("GET", "/blocks/" + blockId + "/children", None, Some(PageQuery([], startCursor, pageSize)))
  }

  function UpdateBlock(blockId: string, properties: Json): Api.RequestOptions {
    Request("PATCH", "/blocks/" + blockId, Some(properties), None)
  }

  function DeleteBlock(blockId: string): Api.RequestOptions {
    Request("DELETE", "/blocks/" + blockId, None, None)
  }

  // ---------------------------------------------------------------------------
  // Pages

  function RetrievePage(pageId: string): Api.RequestOptions {
    Request("GET", "/pages/" + pageId, None, None)
  }

  function UpdatePageProperties(pageId: string, properties: Json): Api.RequestOptions {
    Request("PATCH", "/pages/" + pageId, Some(Obj([("properties", properties)])), None)
  }

  // ---------------------------------------------------------------------------
  // Users

  /** `GET /users` with the pagination query. */
  function ListAllUsers(startCursor: Option<string>, pageSize: Option<int>): (r: Api.RequestOptions)
    ensures r.httpMethod == "GET" && r.path == "/users" && r.body.None?
    ensures r.query == Some(PageQuery([], startCursor, pageSize))
  {
    Request("GET", "/users", None, Some(PageQuery([], startCursor, pageSize)))
  }

  function RetrieveUser(userId: string): Api.RequestOptions {
    Request("GET", "/users/" + userId, None, None)
  }

  function RetrieveBotUser(): Api.RequestOptions {
    Request("GET", "/users/me", None, None)
  }

  // ---------------------------------------------------------------------------
  // Databases

  function CreateDatabase(parent: Json, title: Json, properties: Json): Api.RequestOptions {
    Request("POST", "/databases", Some(Obj([("parent", parent), ("title", title), ("properties", properties)])), None)
  }

  /** `POST /databases/{id}/query` with a body of the truthy ones of its four optional fields. */
  function QueryDatabase(databaseId: string, filter: Option<Json>, sorts: Option<Json>, startCursor: Option<string>, pageSize: Option<int>): (r: Api.RequestOptions)
    ensures r.httpMethod == "POST" && r.path == "/databases/" + databaseId + "/query" && r.query.None?
    ensures r.body == Some(Obj(QueryDatabaseFields(filter, sorts, startCursor, pageSize)))
  {
    Request("POST", "/databases/" + databaseId + "/query", Some(Obj(QueryDatabaseFields(filter, sorts, startCursor, pageSize))), None)
  }

  function QueryDatabaseFields(filter: Option<Json>, sorts: Option<Json>, startCursor: Option<string>, pageSize: Option<int>): Fields {
    PutOpt(PutOpt(PutOpt(PutOpt([], "filter", JsonArg(filter)), "sorts", JsonArg(sorts)),
                  "start_cursor", StrArg(startCursor)), "page_size", NumArg(pageSize))
  }

  /**
   * The query body holds each optional field exactly when its argument is
   * truthy, with that argument as its value, and no other field.
   */
  lemma QueryDatabaseBody(filter: Option<Json>, sorts: Option<Json>, startCursor: Option<string>, pageSize: Option<int>, key: string)
    ensures Lookup(QueryDatabaseFields(filter, sorts, startCursor, pageSize), key)
         == if key == "filter" then JsonArg(filter)
            else if key == "sorts" then JsonArg(sorts)
            else if key == "start_cursor" then StrArg(startCursor)
            else if key == "page_size" then NumArg(pageSize)
            else None
  {
    var b1 := PutOpt([], "filter", JsonArg(filter));
    var b2 := PutOpt(b1, "sorts", JsonArg(sorts));
    var b3 := PutOpt(b2, "start_cursor", StrArg(startCursor));
    assert QueryDatabaseFields(filter, sorts, startCursor, pageSize) == PutOpt(b3, "page_size", NumArg(pageSize));
    LookupPutOpt(b3, "page_size", NumArg(pageSize), key);
    LookupPutOpt(b2, "start_cursor", StrArg(startCursor), key);
    LookupPutOpt(b1, "sorts", JsonArg(sorts), key);
    LookupPutOpt([], "filter", JsonArg(filter), key);
  }


  function RetrieveDatabase(databaseId: string): Api.RequestOptions {
    Request("GET", "/databases/" + databaseId, None, None)
  }

  /** `PATCH /databases/{id}` with a body of the truthy ones of title, description and properties. */
  function UpdateDatabase(databaseId: string, title: Option<Json>, description: Option<Json>, properties: Option<Json>): (r: Api.RequestOptions)
    ensures r.httpMethod == "PATCH" && r.path == "/databases/" + databaseId && r.query.None?
    ensures r.body == Some(Obj(UpdateDatabaseFields(title, description, properties)))
  {
    Request("PATCH", "/databases/" + databaseId, Some(Obj(UpdateDatabaseFields(title, description, properties))), None)
  }

  function UpdateDatabaseFields(title: Option<Json>, description: Option<Json>, properties: Option<Json>): Fields {
    PutOpt(PutOpt(PutOpt([], "title", JsonArg(title)), "description", JsonArg(description)), "properties", JsonArg(properties))
  }

  /** The update body holds each optional field exactly when its argument is truthy, with that value, and no other field. */
  lemma UpdateDatabaseBody(title: Option<Json>, description: Option<Json>, properties: Option<Json>, key: string)
    ensures Lookup(UpdateDatabaseFields(title, description, properties), key)
         == if key == "title" then JsonArg(title)
            else if key == "description" then JsonArg(description)
            else if key == "properties" then JsonArg(properties)
            else None
  {
    var b1 := PutOpt([], "title", JsonArg(title));
    var b2 := PutOpt(b1, "description", JsonArg(description));
    assert UpdateDatabaseFields(title, description, properties) == PutOpt(b2, "properties", JsonArg(properties));
    LookupPutOpt(b2, "properties", JsonArg(properties), key);
    LookupPutOpt(b1, "description", JsonArg(description), key);
    LookupPutOpt([], "title", JsonArg(title), key);
  }


  /** `POST /pages` with body `{parent: {database_id}, properties}`. */
  function CreateDatabaseItem(databaseId: string, properties: Json): (r: Api.RequestOptions)
    ensures r.httpMethod == "POST" && r.path == "/pages" && r.query.None?
    ensures r.body.Some? && r.body.value.Obj?
    ensures Keys(r.body.value.fields) == ["parent", "properties"]
    ensures Lookup(r.body.value.fields, "parent") == Some(Obj([("database_id", Str(databaseId))]))
    ensures Lookup(r.body.value.fields, "properties") == Some(properties)
  {
    Request("POST", "/pages", Some(Obj([("parent", Obj([("database_id", Str(databaseId))])), ("properties", properties)])), None)
  }

  // ---------------------------------------------------------------------------
  // Comments and search

  /** `POST /comments` with `rich_text`, plus `parent` and `discussion_id` when given. */
  function CreateComment(parent: Option<Json>, discussionId: Option<string>, richText: Json): (r: Api.RequestOptions)
    ensures r.httpMethod == "POST" && r.path == "/comments" && r.query.None?
    ensures r.body == Some(Obj(CreateCommentFields(parent, discussionId, richText)))
  {
    Request("POST", "/comments", Some(Obj(CreateCommentFields(parent, discussionId, richText))), None)
  }

  function CreateCommentFields(parent: Option<Json>, discussionId: Option<string>, richText: Json): Fields {
    PutOpt(PutOpt([("rich_text", richText)], "parent", JsonArg(parent)), "discussion_id", StrArg(discussionId))
  }

  /** The comment body always holds `rich_text`, and `parent` and `discussion_id` exactly when truthy, and no other field. */
  lemma CreateCommentBody(parent: Option<Json>, discussionId: Option<string>, richText: Json, key: string)
    ensures Lookup(CreateCommentFields(parent, discussionId, richText), key)
         == if key == "rich_text" then Some(richText)
            else if key == "parent" then JsonArg(parent)
            else if key == "discussion_id" then StrArg(discussionId)
            else None
  {
    var b0: Fields := [("rich_text", richText)];
    var b1 := PutOpt(b0, "parent", JsonArg(parent));
    assert CreateCommentFields(parent, discussionId, richText) == PutOpt(b1, "discussion_id", StrArg(discussionId));
    LookupPutOpt(b1, "discussion_id", StrArg(discussionId), key);
    LookupPutOpt(b0, "parent", JsonArg(parent), key);
  }

  /** `GET /comments`; the query always starts with `block_id`, then the pagination. */
  function RetrieveComments(blockId: string, startCursor: Option<string>, pageSize: Option<int>): (r: Api.RequestOptions)
    ensures r.httpMethod == "GET" && r.path == "/comments" && r.body.None?
    ensures r.query.Some? && |r.query.value| >= 1 && r.query.value[0] == ("block_id", Some(blockId))
    ensures r.query == Some(PageQuery([("block_id", Some(blockId))], startCursor, pageSize))
  {
    var q := PageQuery([("block_id", Some(blockId))], startCursor, pageSize);
    PaginationRoundTrip([("block_id", Some(blockId))], startCursor, pageSize);
    Request("GET", "/comments", None, Some(q))
  }

  /** `POST /search` with a body of the truthy ones of its five optional fields. */
  function Search(query: Option<string>, filter: Option<Json>, sort: Option<Json>, startCursor: Option<string>, pageSize: Option<int>): (r: Api.RequestOptions)
    ensures r.httpMethod == "POST" && r.path == "/search" && r.query.None?
    ensures r.body == Some(Obj(SearchFields(query, filter, sort, startCursor, pageSize)))
  {
    Request("POST", "/search", Some(Obj(SearchFields(query, filter, sort, startCursor, pageSize))), None)
  }

  function SearchFields(query: Option<string>, filter: Option<Json>, sort: Option<Json>, startCursor: Option<string>, pageSize: Option<int>): Fields {
    PutOpt(PutOpt(PutOpt(PutOpt(PutOpt([], "query", StrArg(query)), "filter", JsonArg(filter)), "sort", JsonArg(sort)),
                  "start_cursor", StrArg(startCursor)), "page_size", NumArg(pageSize))
  }

  /**
   * The search body holds each optional field exactly when its argument is
   * truthy, with that argument as its value, and no other field.
   */
  lemma SearchBody(query: Option<string>, filter: Option<Json>, sort: Option<Json>, startCursor: Option<string>, pageSize: Option<int>, key: string)
    ensures Lookup(SearchFields(query, filter, sort, startCursor, pageSize), key)
         == if key == "query" then StrArg(query)
            else if key == "filter" then JsonArg(filter)
            else if key == "sort" then JsonArg(sort)
            else if key == "start_cursor" then StrArg(startCursor)
            else if key == "page_size" then NumArg(pageSize)
            else None
  {
    var b1 := PutOpt([], "query", StrArg(query));
    var b2 := PutOpt(b1, "filter", JsonArg(filter));
    var b3 := PutOpt(b2, "sort", JsonArg(sort));
    var b4 := PutOpt(b3, "start_cursor", StrArg(startCursor));
    assert SearchFields(query, filter, sort, startCursor, pageSize) == PutOpt(b4, "page_size", NumArg(pageSize));
    LookupPutOpt(b4, "page_size", NumArg(pageSize), key);
    LookupPutOpt(b3, "start_cursor", StrArg(startCursor), key);
    LookupPutOpt(b2, "sort", JsonArg(sort), key);
    LookupPutOpt(b1, "filter", JsonArg(filter), key);
    LookupPutOpt([], "query", StrArg(query), key);
  }

  /** The plain reads are bodiless, query-less `GET`s of one resource. */
  lemma PlainReadsAreBodilessGets(id: string)
    ensures forall r :: r in [RetrieveBlock(id), RetrievePage(id), RetrieveUser(id), RetrieveBotUser(), RetrieveDatabase(id)]
              ==> r.httpMethod == "GET" && r.body.None? && r.query.None? && r.maxRetries.None?
    ensures RetrieveBlock(id).path == "/blocks/" + id && RetrievePage(id).path == "/pages/" + id
    ensures RetrieveUser(id).path == "/users/" + id && RetrieveBotUser().path == "/users/me"
    ensures RetrieveDatabase(id).path == "/databases/" + id
  {
  }

  /**
   * The writes without optional fields: the block update sends the properties
   * as the body itself, the page update wraps them in `properties`, database
   * creation sends its three arguments, and deletion sends no body.
   */
  lemma FixedBodyWrites(id: string, properties: Json, parent: Json, title: Json)
    ensures UpdateBlock(id, properties).httpMethod == "PATCH" && UpdateBlock(id, properties).body == Some(properties)
    ensures UpdatePageProperties(id, properties).httpMethod == "PATCH"
    ensures UpdatePageProperties(id, properties).body == Some(Obj([("properties", properties)]))
    ensures Keys(CreateDatabase(parent, title, properties).body.value.fields) == ["parent", "title", "properties"]
    ensures Lookup(CreateDatabase(parent, title, properties).body.value.fields, "title") == Some(title)
    ensures DeleteBlock(id).httpMethod == "DELETE" && DeleteBlock(id).body.None? && DeleteBlock(id).path == "/blocks/" + id
  {
  }

  // ---------------------------------------------------------------------------
  // CSV import

  function Count(s: string, c: char): nat {
    if s == [] then 0 else (if s[0] == c then 1 else 0) + Count(s[1..], c)
  }

  /** `s.split(sep)` for a one-character separator. */
  function Split(s: string, sep: char): (parts: seq<string>)
    ensures |parts| == Count(s, sep) + 1
    ensures forall i :: 0 <= i < |parts| ==> sep !in parts[i]
  {
    if s == [] then [""]
    else
      var rest := Split(s[1..], sep);
      if s[0] == sep then [""] + rest
      else
        assert forall i :: 1 <= i < |rest| ==> rest[1..][i - 1] == rest[i];
        [[s[0]] + rest[0]] + rest[1..]
  }

  function Join(parts: seq<string>, sep: char): string
    requires |parts| >= 1
  {
    if |parts| == 1 then parts[0] else parts[0] + [sep] + Join(parts[1..], sep)
  }

  /** Splitting loses nothing: joining the parts with the separator gives back the text. */
  lemma {:induction false} SplitJoin(s: string, sep: char)
    ensures Join(Split(s, sep), sep) == s
  {
    if s != [] {
      var rest := Split(s[1..], sep);
      SplitJoin(s[1..], sep);
      if s[0] == sep {
        assert ([""] + rest)[1..] == rest;
      } else {
        var parts := [[s[0]] + rest[0]] + rest[1..];
        if |rest| == 1 {
          assert Join(parts, sep) == [s[0]] + rest[0];
        } else {
          assert parts[1..] == rest[1..];
          assert Join(rest, sep) == rest[0] + [sep] + Join(rest[1..], sep);
        }
      }
    }
  }

  // ---------------------------------------------------------------------------
  // The client object

  class NotionClientWrapper {
    const apiClient: Api.ApiClient
    var customFeatures: map<string, bool>

    constructor (apiToken: string)
      ensures customFeatures == DefaultFeatures
      ensures apiClient.baseUrl == BaseUrl && apiClient.headers == HeadersFor(apiToken)
      ensures apiClient.timeout == Api.DefaultTimeout
    {
      apiClient := new Api.ApiClient(BaseUrl, HeadersFor(apiToken), None);
      new;
      customFeatures := map[];
      customFeatures := customFeatures["workflows" := false];
      customFeatures := customFeatures["csv_import" := true];
      customFeatures := customFeatures["csv_export" := true];
      customFeatures := customFeatures["recurring_tasks" := true];
    }

    function IsFeatureAvailable(featureName: string): bool
      reads this
    {
      FeatureFlag(customFeatures, featureName)
    }

    /**
     * What every wrapper does with its request: send it with the default
     * retries and return `response.data`, which is absent when the request
     * failed.
     */
    method Dispatch(request: Api.RequestOptions, transport: nat -> Api.AttemptOutcome) returns (data: Option<Json>, sent: nat)
      ensures var (response, n) := Api.Expected(transport, request.maxRetries.GetOr(Api.DefaultMaxRetries));
        sent == n && data == (if response.Success? then Some(response.data) else None)
      ensures data.Some? <==> exists k :: 0 <= k < Api.Budget(request.maxRetries.GetOr(Api.DefaultMaxRetries)) && Api.Succeeds(transport(k))
    {
      var response, n, _ := apiClient.Request(request, transport);
      data := if response.Success? then Some(response.data) else None;
      sent := n;
    }

    /** Refused while the `workflows` flag is off, without any request; otherwise the simulated creation. */
    method CreateWorkflow(title: string) returns (reply: Reply)
      ensures !IsFeatureAvailable("workflows") ==> reply == Unavailable("Workflow creation is not available with current API version.")
      ensures IsFeatureAvailable("workflows") ==> reply == WorkflowSimulated(title)
    {
      if !IsFeatureAvailable("workflows") {
        return Unavailable("Workflow creation is not available with current API version.");
      }
      reply := WorkflowSimulated(title);
    }

    /**
     * Counts the data rows of a CSV text: the lines after the header, which is
     * the number of line breaks. Every row counts as imported and no errors are
     * reported.
     */
    method ImportFromCsv(csvContent: string) returns (reply: Reply)
      ensures !IsFeatureAvailable("csv_import") ==> reply == Unavailable("CSV import is not available with current API version.")
      ensures IsFeatureAvailable("csv_import") ==>
        reply == ImportReply(Count(csvContent, '\n'), Count(csvContent, '\n'), [])
    {
      if !IsFeatureAvailable("csv_import") {
        return Unavailable("CSV import is not available with current API version.");
      }
      var lines := Split(csvContent, '\n');
      var rows := seq(|lines|, i requires 0 <= i < |lines| => Split(lines[i], ','));
      var dataRows := rows[1..];
      reply := ImportReply(|dataRows|, |dataRows|, []);
    }

    /** CSV export: refused while `csv_export` is off; otherwise the query it sends (at most 100 rows). */
    method ExportToCsvRequest(databaseId: string, filter: Option<Json>) returns (r: Result<Api.RequestOptions, Reply>)
      ensures !IsFeatureAvailable("csv_export") ==> r == Err(Unavailable("CSV export is not available with current API version."))
      ensures IsFeatureAvailable("csv_export") ==> r == Ok(QueryDatabase(databaseId, filter, None, None, Some(100)))
    {
      if !IsFeatureAvailable("csv_export") {
        return Err(Unavailable("CSV export is not available with current API version."));
      }
      r := Ok(QueryDatabase(databaseId, filter, None, None, Some(100)));
    }

    /**
     * Recurring task: refused while `recurring_tasks` is off; otherwise the
     * database item it creates, whose properties are the given task properties with a
     * `Recurrence` text property set to `<frequency> (every <interval>)`.
     */
    method RecurringTaskRequest(databaseId: string, taskProperties: Fields, frequency: string, interval: int)
      returns (r: Result<Api.RequestOptions, Reply>)
      ensures !IsFeatureAvailable("recurring_tasks") ==> r == Err(Unavailable("Recurring tasks are not available with current API version."))
      ensures IsFeatureAvailable("recurring_tasks") ==>
        r == Ok(CreateDatabaseItem(databaseId, Obj(Put(taskProperties, "Recurrence", RecurrenceProperty(frequency, interval)))))
      ensures r.Ok? ==>
        && r.value.httpMethod == "POST" && r.value.path == "/pages"
        && r.value.body.Some? && r.value.body.value.Obj?
        && Lookup(r.value.body.value.fields, "parent") == Some(Obj([("database_id", Str(databaseId))]))
      ensures r.Ok? && r.value.body.Some? && r.value.body.value.Obj? ==>
        var props := Lookup(r.value.body.value.fields, "properties");
        && props.Some? && props.value.Obj?
        && Lookup(props.value.fields, "Recurrence") == Some(RecurrenceProperty(frequency, interval))
        && forall k :: k != "Recurrence" ==> Lookup(props.value.fields, k) == Lookup(taskProperties, k)
    {
      if !IsFeatureAvailable("recurring_tasks") {
        return Err(Unavailable("Recurring tasks are not available with current API version."));
      }
      var properties := Put(taskProperties, "Recurrence", RecurrenceProperty(frequency, interval));
      r := Ok(CreateDatabaseItem(databaseId, Obj(properties)));
    }
  }

  /** The rich-text property recording a recurrence. */
  function RecurrenceProperty(frequency: string, interval: int): Json {
    var text := frequency + " (every " + IntToDecimal(interval) + ")";
    Obj([("rich_text", Arr([Obj([("type", Str("text")), ("text", Obj([("content", Str(text))]))])]))])
  }

  /** Lines after the first of a text: the number of line breaks, whatever the text. */
  lemma {:induction false} RowCountIsLineBreaks(csvContent: string)
    ensures |Split(csvContent, '\n')[1..]| == Count(csvContent, '\n')
    ensures Count(csvContent, '\n') == 0 <==> '\n' !in csvContent
  {
    if csvContent != [] {
      RowCountIsLineBreaks(csvContent[1..]);
      assert csvContent == [csvContent[0]] + csvContent[1..];
    }
  }
}
