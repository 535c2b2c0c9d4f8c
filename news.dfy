/** The news tool: the fallback branches of its fetch, the builder of its
    `tool` message, and its schema. The NewsAPI client is an outcome given to
    the model. */
module News {
  import opened Json
  import opened Protocol

  /** The arguments `get_news` passes on to the client: `q`, `from_param`, `to`
      and `sort_by`. `VNull` stands for Python's `None`. */
  datatype NewsQuery = NewsQuery(query: Value, fromParam: Value, to: Value, sortBy: Value)

  /** What one `get_everything` call does: raise, or return a response object. */
  datatype NewsFetch = FetchRaised | Fetched(response: map<string, Value>)

  const NewsToolName: string := "get_news"

  /** The empty article list every fallback returns. */
  const NoArticles: Value := VList([])

  /** The query the builder derives from the decoded arguments: `query` falls
      back to "", `sortBy` to "publishedAt", and `from` and `to` to `None`;
      the argument `from` becomes the `from_` parameter. */
  function NewsArguments(args: Args): (q: NewsQuery)
    ensures q.query == (if "query" in args then args["query"] else VString(""))
    ensures q.fromParam == (if "from" in args then args["from"] else VNull)
    ensures q.to == (if "to" in args then args["to"] else VNull)
    ensures q.sortBy == (if "sortBy" in args then args["sortBy"] else VString("publishedAt"))
  {
    NewsQuery(GetOr(args, "query", VString("")), Get(args, "from"), Get(args, "to"),
              GetOr(args, "sortBy", VString("publishedAt")))
  }

  /** `get_news`: with no client it returns no articles and makes no call;
      otherwise it returns the response's `articles`, or no articles when the
      call raises or the response has no such field. */
  function GetNews(clientAvailable: bool, q: NewsQuery, fetch: NewsQuery -> NewsFetch): (articles: Value)
    ensures !clientAvailable ==> articles == NoArticles
    ensures clientAvailable && fetch(q).Fetched? && "articles" in fetch(q).response ==>
              articles == fetch(q).response["articles"]
    ensures clientAvailable && (fetch(q).FetchRaised? || "articles" !in fetch(q).response) ==>
              articles == NoArticles
  {
    if !clientAvailable then NoArticles
    else match fetch(q)
      case FetchRaised => NoArticles
      case Fetched(response) =>
        if "articles" in response then response["articles"] else NoArticles
  }

  /** Without a client the service is never consulted: any two services give the same result. */
  lemma OfflineIgnoresService(q: NewsQuery, fetch1: NewsQuery -> NewsFetch, fetch2: NewsQuery -> NewsFetch)
    ensures GetNews(false, q, fetch1) == GetNews(false, q, fetch2) == NoArticles
  {
  }

  /** A value Python's `len()` accepts: a string, a list or an object. */
  predicate Sized(v: Value) {
    v.VString? || v.VList? || v.VObject?
  }

  /** `process_news_response`: decode the arguments, fetch with the derived query
      and wrap the string form of the article list in a `tool` message answering
      the call. `None` when decoding raises, or when the articles have no
      length, since the builder reports their count; `get_news` itself never
      raises. */
  function ProcessNewsResponse(call: ToolCall, parse: Parser, clientAvailable: bool,
                               fetch: NewsQuery -> NewsFetch, render: Value -> string): (m: Option<Message>)
    ensures m.None? <==>
              || parse(call.arguments).None?
              || !Sized(GetNews(clientAvailable, NewsArguments(parse(call.arguments).value), fetch))
    ensures m.Some? ==>
              && m.value.ToolResult?
              && m.value.toolCallId == call.id
              && m.value.name == NewsToolName
              && m.value.content == render(GetNews(clientAvailable, NewsArguments(parse(call.arguments).value), fetch))
  {
    match parse(call.arguments)
    case None => None
    case Some(args) =>
      var articles := GetNews(clientAvailable, NewsArguments(args), fetch);
      if !Sized(articles) then None
      else Some(ToolResult(call.id, NewsToolName, render(articles)))
  }

  /** Every fallback answers the call: without a client, after a raising
      fetch or without an `articles` field, a decoded call gets the rendering
      of the empty list. */
  lemma FallbacksAnswer(call: ToolCall, parse: Parser, clientAvailable: bool,
                        fetch: NewsQuery -> NewsFetch, render: Value -> string)
    requires parse(call.arguments).Some?
    requires var q := NewsArguments(parse(call.arguments).value);
             !clientAvailable || fetch(q).FetchRaised? || "articles" !in fetch(q).response
    ensures ProcessNewsResponse(call, parse, clientAvailable, fetch, render) ==
              Some(ToolResult(call.id, "get_news", render(VList([]))))
  {
  }

  /** Arguments with none of the four keys query "" newest first, with no date bounds. */
  lemma EmptyArgumentsUseDefaults()
    ensures NewsArguments(map[]) == NewsQuery(VString(""), VNull, VNull, VString("publishedAt"))
  {
  }

  /** The descriptions the news schema gives the service, verbatim. */
  const NewsDescription: string := "Get news articles based on query with optional date filtering and sorting"
  const QueryDescription: string := "Search query for news articles (e.g., 'bitcoin', 'AI', 'climate change')"
  const FromDescription: string :=
    "A date and optional time for the oldest article allowed. This should be in ISO 8601 format (e.g. 2025-08-02 or 2025-08-02T11:04:42)"
  const ToDescription: string :=
    "A date and optional time for the newest article allowed. This should be in ISO 8601 format (e.g. 2025-08-02 or 2025-08-02T11:04:42)"
  const SortByDescription: string :=
    "The order to sort articles in. relevancy = articles more closely related to query come first. popularity = articles from popular sources come first. publishedAt = newest articles come first. Default: publishedAt"

  /** The schema offered to the completion service for `get_news`. */
  const NewsSchema: ToolSchema := ToolSchema(
    "get_news",
    NewsDescription,
    [ Param("query", StringType, QueryDescription, None, None),
      Param("from", StringType, FromDescription, None, None),
      Param("to", StringType, ToDescription, None, None),
      Param("sortBy", StringType, SortByDescription, Some(["relevancy", "popularity", "publishedAt"]), None) ],
    ["query"])

  /** The schema requires only `query`; `sortBy` offers exactly relevancy,
      popularity and publishedAt, and the builder's fallback is one of them. */
  lemma NewsSchemaAgrees()
    ensures WellFormed(NewsSchema)
    ensures NewsSchema.required == ["query"]
    ensures ParamNamed(NewsSchema.params, "sortBy").Some?
    ensures ParamNamed(NewsSchema.params, "sortBy").value.choices == Some(["relevancy", "popularity", "publishedAt"])
    ensures NewsArguments(map[]).sortBy.VString?
    ensures NewsArguments(map[]).sortBy.s in ParamNamed(NewsSchema.params, "sortBy").value.choices.value
  {
    assert ParamNamed(NewsSchema.params, "sortBy") == Some(NewsSchema.params[3]);
  }

  /** The declared parameters are exactly query, from, to and sortBy. */
  lemma NewsSchemaKeys()
    ensures forall key :: ParamNamed(NewsSchema.params, key).Some? <==> key in {"query", "from", "to", "sortBy"}
  {
    var ps := NewsSchema.params;
    forall key ensures ParamNamed(ps, key).Some? <==> key in {"query", "from", "to", "sortBy"} {
      if key in {"query", "from", "to", "sortBy"} {
        assert key == ps[0].name || key == ps[1].name || key == ps[2].name || key == ps[3].name;
      }
    }
  }

  /** A key the schema does not declare plays no part in the query. */
  lemma UndeclaredKeyIgnored(args: Args, key: string, v: Value)
    requires ParamNamed(NewsSchema.params, key).None?
    ensures NewsArguments(args[key := v]) == NewsArguments(args)
  {
    NewsSchemaKeys();
  }

  /** Every key the schema declares is passed on: its value becomes the
      matching field of the query. */
  lemma DeclaredKeyRead(args: Args, key: string, v: Value)
    requires ParamNamed(NewsSchema.params, key).Some?
    ensures var q := NewsArguments(args[key := v]);
            && (key == "query" ==> q.query == v)
            && (key == "from" ==> q.fromParam == v)
            && (key == "to" ==> q.to == v)
            && (key == "sortBy" ==> q.sortBy == v)
            && (key == "query" || key == "from" || key == "to" || key == "sortBy")
  {
    NewsSchemaKeys();
  }
}
