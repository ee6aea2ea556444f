/**
 * The two search providers' normalisers: an already-fetched JSON reply (or the
 * exception its fetch raised) becomes a list of result records. Every failure
 * inside the provider's `try`, including a missing credential, yields an
 * empty list.
 */
module Search {
  import opened Py

  const WebSnippetLimit := 400
  const NewsSnippetLimit := 300

  /** A normalised source. Field values are whatever the provider sent, so they stay JSON. */
  datatype SearchResult =
    | Web(title: Json, url: Json, snippet: Json)
    | News(title: Json, url: Json, snippet: Json, source: Json, published: Json)
  {
    /** The record's `type` entry. */
    function Kind(): string
    {
      if Web? then "web" else "news"
    }

    /** The record as the dict the handler serialises. */
    function ToJson(): Json
    {
      match this
      case Web(t, u, s) =>
        JObject(map["type" := JString(Kind()), "title" := t, "url" := u, "snippet" := s])
      case News(t, u, s, src, p) =>
        JObject(map["type" := JString(Kind()), "title" := t, "url" := u, "snippet" := s,
                    "source" := src, "published" := p])
    }
  }

  /** What `tavily_search` returns: the normalised results and the provider's own `answer`. */
  datatype WebSearch = WebSearch(results: seq<SearchResult>, answer: Json)

  const NoWebResults := WebSearch([], JNull)

  /**
   * The elements `for x in j` visits. Iterating a string or a dict yields
   * strings, on which the loop bodies' `.get` raises, so only the empty ones get
   * through; anything else is not iterable.
   */
  function RecordsToVisit(j: Json): (r: Option<seq<Json>>)
    ensures r.Some? <==> j.JArray? || j == JString([]) || j == JObject(map[])
    ensures j.JArray? ==> r == Some(j.items)
    ensures r.Some? && !j.JArray? ==> r == Some([])
  {
    match j
    case JArray(a) => Some(a)
    case JString(s) => if s == [] then Some([]) else None
    case JObject(m) => if m == map[] then Some([]) else None
    case _ => None
  }

  /**
   * One Tavily hit as a record: title falls back to url and then to "Source",
   * url defaults to "", and the content is cut to 400 items. `None` when the
   * hit is not a dict or its content cannot be sliced.
   */
  function WebRecord(r: Json): (res: Option<SearchResult>)
    ensures res.Some? <==> r.JObject? && Slice(Or(Get(r.fields, "content"), JString("")), WebSnippetLimit).Some?
    ensures res.Some? ==> res.value.Web? && SizeOf(res.value.snippet) <= WebSnippetLimit
    ensures res.Some? ==> res.value.snippet.JString? || res.value.snippet.JArray?
    ensures res.Some? ==> res.value.url == GetOr(r.fields, "url", JString(""))
    ensures res.Some? && Truthy(Get(r.fields, "title")) ==> res.value.title == Get(r.fields, "title")
    ensures res.Some? && !Truthy(Get(r.fields, "title")) && Truthy(Get(r.fields, "url")) ==>
              res.value.title == Get(r.fields, "url")
    ensures res.Some? && !Truthy(Get(r.fields, "title")) && !Truthy(Get(r.fields, "url")) ==>
              res.value.title == JString("Source")
    ensures res.Some? ==> Slice(Or(Get(r.fields, "content"), JString("")), WebSnippetLimit) == Some(res.value.snippet)
    ensures res.Some? && Get(r.fields, "content").JString? ==>
              res.value.snippet == JString(Take(Get(r.fields, "content").s, WebSnippetLimit))
  {
    match r
    case JObject(m) =>
      var title := Or(Or(Get(m, "title"), Get(m, "url")), JString("Source"));
      var url := GetOr(m, "url", JString(""));
      (match Slice(Or(Get(m, "content"), JString("")), WebSnippetLimit)
       case None => None
       case Some(snippet) => Some(Web(title, url, snippet)))
    case _ => None
  }

  /**
   * The loop of `tavily_search`: one record per hit, in the provider's order,
   * or nothing when any hit raises.
   */
  method CollectWebResults(hits: seq<Json>) returns (results: Option<seq<SearchResult>>)
    ensures results == MapAll(WebRecord, hits)
    ensures results.Some? ==> |results.value| == |hits|
    ensures results.Some? ==> forall k :: 0 <= k < |hits| ==> results.value[k] == WebRecord(hits[k]).value
  {
    var acc: seq<SearchResult> := [];
    var i := 0;
    while i < |hits|
      invariant 0 <= i <= |hits|
      invariant |acc| == i
      invariant forall k :: 0 <= k < i ==> WebRecord(hits[k]).Some? && acc[k] == WebRecord(hits[k]).value
    {
      var rec := WebRecord(hits[i]);
      if rec.None? {
        return None;
      }
      acc := acc + [rec.value];
      i := i + 1;
    }
    assert acc == MapAll(WebRecord, hits).value;
    return Some(acc);
  }

  /**
   * `tavily_search` once the HTTP call is done: `reply` is what `_http_json`
   * returned or raised. Without a key nothing is fetched; a reply that is not a
   * dict, a `results` entry that cannot be walked or a hit that raises all give
   * the empty search.
   */
  function TavilySearch(apiKey: string, reply: Result<Json>): (ws: WebSearch)
    ensures apiKey == "" || reply.Raise? || !reply.value.JObject? ==> ws == NoWebResults
    ensures forall k :: 0 <= k < |ws.results| ==> ws.results[k].Web? && SizeOf(ws.results[k].snippet) <= WebSnippetLimit
    ensures ws != NoWebResults ==>
              && apiKey != "" && reply.Ok? && reply.value.JObject?
              && RecordsToVisit(GetOr(reply.value.fields, "results", JArray([]))).Some?
              && MapAll(WebRecord, RecordsToVisit(GetOr(reply.value.fields, "results", JArray([]))).value).Some?
  {
    if apiKey == "" then NoWebResults
    else
      match reply
      case Raise(_) => NoWebResults
      case Ok(data) =>
        if !data.JObject? then NoWebResults
        else
          match RecordsToVisit(GetOr(data.fields, "results", JArray([])))
          case None => NoWebResults
          case Some(hits) =>
            match MapAll(WebRecord, hits)
            case None => NoWebResults
            case Some(results) => WebSearch(results, Get(data.fields, "answer"))
  }

  /** A well-formed Tavily reply keeps every hit, in order, and passes the provider's answer on. */
  lemma TavilyKeepsOrder(apiKey: string, data: map<string, Json>, hits: seq<Json>)
    requires apiKey != ""
    requires Get(data, "results") == JArray(hits)
    requires forall k :: 0 <= k < |hits| ==> WebRecord(hits[k]).Some?
    ensures TavilySearch(apiKey, Ok(JObject(data))).answer == Get(data, "answer")
    ensures |TavilySearch(apiKey, Ok(JObject(data))).results| == |hits|
    ensures forall k :: 0 <= k < |hits| ==>
              TavilySearch(apiKey, Ok(JObject(data))).results[k] == WebRecord(hits[k]).value
  {
  }

  /**
   * One hit that raises (not a dict, or content that cannot be sliced) empties
   * the whole web search: the surrounding `try` drops the hits collected so far
   * and the provider's answer with them.
   */
  lemma RaisingHitDropsAllWeb(apiKey: string, data: map<string, Json>, hits: seq<Json>, k: nat)
    requires Get(data, "results") == JArray(hits)
    requires k < |hits| && WebRecord(hits[k]).None?
    ensures TavilySearch(apiKey, Ok(JObject(data))) == NoWebResults
  {
    assert MapAll(WebRecord, hits).None?;
  }

  /**
   * One NewsAPI article as a record: title defaults to "Article", url and
   * publishedAt to "", the source's name to "Unknown", and the description is
   * cut to 300 items. `None` when the article is not a dict, its description
   * cannot be sliced (an explicit `null` included: the default only covers a
   * missing key) or its `source` is present but not a dict.
   */
  function NewsRecord(article: Json): (res: Option<SearchResult>)
    ensures res.Some? <==>
              && article.JObject?
              && Slice(GetOr(article.fields, "description", JString("")), NewsSnippetLimit).Some?
              && GetOr(article.fields, "source", JObject(map[])).JObject?
    ensures res.Some? ==> res.value.News? && SizeOf(res.value.snippet) <= NewsSnippetLimit
    ensures res.Some? ==> res.value.title == GetOr(article.fields, "title", JString("Article"))
    ensures res.Some? ==> res.value.url == GetOr(article.fields, "url", JString(""))
    ensures res.Some? ==> res.value.published == GetOr(article.fields, "publishedAt", JString(""))
    ensures res.Some? ==> Slice(GetOr(article.fields, "description", JString("")), NewsSnippetLimit) == Some(res.value.snippet)
    ensures res.Some? ==>
              res.value.source == GetOr(GetOr(article.fields, "source", JObject(map[])).fields, "name", JString("Unknown"))
  {
    match article
    case JObject(m) =>
      var title := GetOr(m, "title", JString("Article"));
      var url := GetOr(m, "url", JString(""));
      (match Slice(GetOr(m, "description", JString("")), NewsSnippetLimit)
       case None => None
       case Some(snippet) =>
         var src := GetOr(m, "source", JObject(map[]));
         if !src.JObject? then None
         else Some(News(title, url, snippet, GetOr(src.fields, "name", JString("Unknown")),
                        GetOr(m, "publishedAt", JString("")))))
    case _ => None
  }

  /** The loop of `news_search`: one record per article, in order, or nothing when any article raises. */
  method CollectNewsResults(articles: seq<Json>) returns (results: Option<seq<SearchResult>>)
    ensures results == MapAll(NewsRecord, articles)
    ensures results.Some? ==> |results.value| == |articles|
    ensures results.Some? ==> forall k :: 0 <= k < |articles| ==> results.value[k] == NewsRecord(articles[k]).value
  {
    var acc: seq<SearchResult> := [];
    var i := 0;
    while i < |articles|
      invariant 0 <= i <= |articles|
      invariant |acc| == i
      invariant forall k :: 0 <= k < i ==> NewsRecord(articles[k]).Some? && acc[k] == NewsRecord(articles[k]).value
    {
      var rec := NewsRecord(articles[i]);
      if rec.None? {
        return None;
      }
      acc := acc + [rec.value];
      i := i + 1;
    }
    assert acc == MapAll(NewsRecord, articles).value;
    return Some(acc);
  }

  /** `data.get("articles", [])[:max_results]`, walked: `None` when it raises. */
  function ArticlesToVisit(data: Json, maxResults: int): (r: Option<seq<Json>>)
    ensures r.Some? && maxResults >= 0 ==> |r.value| <= maxResults
    ensures !data.JObject? ==> r.None?
    ensures data.JObject? && GetOr(data.fields, "articles", JArray([])).JArray? ==>
              r == Some(Take(GetOr(data.fields, "articles", JArray([])).items, maxResults))
    ensures data.JObject? && GetOr(data.fields, "articles", JArray([])).JString? ==>
              (r.Some? <==> Take(GetOr(data.fields, "articles", JArray([])).s, maxResults) == []) && (r.Some? ==> r.value == [])
    ensures data.JObject? && !GetOr(data.fields, "articles", JArray([])).JArray? && !GetOr(data.fields, "articles", JArray([])).JString? ==>
              r.None?
  {
    if !data.JObject? then None
    else
      match Slice(GetOr(data.fields, "articles", JArray([])), maxResults)
      case None => None
      case Some(kept) => RecordsToVisit(kept)
  }

  /**
   * `news_search` once the request is done: `reply` is the decoded body or the
   * exception the request or the decoding raised. Without a key nothing is
   * fetched; any failure gives the empty list.
   */
  function NewsSearch(apiKey: string, reply: Result<Json>, maxResults: int): (news: seq<SearchResult>)
    ensures apiKey == "" || reply.Raise? ==> news == []
    ensures reply.Ok? && !reply.value.JObject? ==> news == []
    ensures news != [] ==>
              && apiKey != "" && reply.Ok?
              && ArticlesToVisit(reply.value, maxResults).Some?
              && MapAll(NewsRecord, ArticlesToVisit(reply.value, maxResults).value).Some?
    ensures maxResults >= 0 ==> |news| <= maxResults
    ensures forall k :: 0 <= k < |news| ==> news[k].News? && SizeOf(news[k].snippet) <= NewsSnippetLimit
  {
    if apiKey == "" then []
    else
      match reply
      case Raise(_) => []
      case Ok(data) =>
        match ArticlesToVisit(data, maxResults)
        case None => []
        case Some(articles) =>
          match MapAll(NewsRecord, articles)
          case None => []
          case Some(results) => results
  }

  /** An `articles` value that cannot be sliced (null, a number, a dict) raises, so no news comes back. */
  lemma UnsliceableArticlesEmpty(apiKey: string, data: map<string, Json>, maxResults: int)
    requires "articles" in data && !data["articles"].JArray? && !data["articles"].JString?
    ensures NewsSearch(apiKey, Ok(JObject(data)), maxResults) == []
  {
  }

  /** A reply whose `articles` is null gives no news. */
  lemma NullArticlesEmpty(apiKey: string, maxResults: int)
    ensures NewsSearch(apiKey, Ok(JObject(map["articles" := JNull])), maxResults) == []
  {
    UnsliceableArticlesEmpty(apiKey, map["articles" := JNull], maxResults);
  }

  /** The first `maxResults` articles, when well-formed, are kept in order, whatever follows them. */
  lemma NewsKeepsOrder(apiKey: string, data: map<string, Json>, articles: seq<Json>, maxResults: nat)
    requires apiKey != ""
    requires Get(data, "articles") == JArray(articles)
    requires forall k :: 0 <= k < |articles| && k < maxResults ==> NewsRecord(articles[k]).Some?
    ensures |NewsSearch(apiKey, Ok(JObject(data)), maxResults)| == if |articles| < maxResults then |articles| else maxResults
    ensures forall k :: 0 <= k < |NewsSearch(apiKey, Ok(JObject(data)), maxResults)| ==>
              NewsSearch(apiKey, Ok(JObject(data)), maxResults)[k] == NewsRecord(articles[k]).value
  {
    var kept := Take(articles, maxResults);
    assert forall k :: 0 <= k < |kept| ==> kept[k] == articles[k];
  }

  /**
   * One article among the first `maxResults` that raises (not a dict, an
   * unsliceable description, a non-dict source) empties the whole news list:
   * the surrounding `try` drops every article collected so far.
   */
  lemma RaisingArticleDropsAllNews(apiKey: string, data: map<string, Json>, articles: seq<Json>, maxResults: nat, k: nat)
    requires apiKey != ""
    requires Get(data, "articles") == JArray(articles)
    requires k < |articles| && k < maxResults
    requires NewsRecord(articles[k]).None?
    ensures NewsSearch(apiKey, Ok(JObject(data)), maxResults) == []
  {
    var kept := Take(articles, maxResults);
    assert kept[k] == articles[k];
  }

  /**
   * One article whose description is an explicit `null` empties the whole news
   * list, because `None[:300]` raises and the surrounding `try` drops every
   * article collected so far.
   */
  lemma NullDescriptionDropsAllNews(apiKey: string, data: map<string, Json>, articles: seq<Json>, k: nat)
    requires apiKey != ""
    requires Get(data, "articles") == JArray(articles)
    requires k < |articles| && k < 3
    requires articles[k].JObject? && Get(articles[k].fields, "description") == JNull
    requires "description" in articles[k].fields
    ensures NewsSearch(apiKey, Ok(JObject(data)), 3) == []
  {
    var kept := Take(articles, 3);
    assert kept[k] == articles[k];
    assert NewsRecord(kept[k]).None?;
  }
}
