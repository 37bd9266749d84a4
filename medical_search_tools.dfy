/** The medical search tools: three sources (Bing web search, PubMed/Medline, a curated
    WHO table), each with its own result cache, and the aggregator that merges them,
    ranks them by source trust and truncates. HTTP requests are oracles. */
module MedicalSearch {
  import opened Wrappers
  import opened Text
  import opened Values

  /** `_cache_key(query, **kwargs)`: the query, `_`, then the keyword arguments as a JSON
      object with sorted keys. */
  function CacheKey(query: string, kwargs: Pairs): string
  {
    query + "_" + JsonObject(SortByKey(kwargs))
  }

  /** The same keyword arguments given in any order make the same key. */
  lemma CacheKeyOrderFree(query: string, a: Pairs, b: Pairs)
    requires KeysDistinct(a) && KeysDistinct(b) && multiset(a) == multiset(b)
    ensures CacheKey(query, a) == CacheKey(query, b)
  {
    SortByKeyPermutation(a, b);
  }

  /** The key lists every keyword argument once, in ascending key order. */
  lemma CacheKeyListsSortedArguments(kwargs: Pairs)
    requires KeysDistinct(kwargs)
    ensures KeysAscending(SortByKey(kwargs)) && multiset(SortByKey(kwargs)) == multiset(kwargs)
  {
    SortByKeyAscending(kwargs);
  }

  /** What a results cache holds: the result list stored under each cache key. */
  type CacheMap = map<string, seq<Dict>>

  /** `results_cache` of one tool. */
  class ResultCache {
    var entries: CacheMap

    constructor ()
      ensures entries == map[]
    {
      entries := map[];
    }

    /** `clear_cache`. */
    method Clear()
      modifies this
      ensures entries == map[]
    {
      entries := map[];
    }
  }

  /** The value of the `source` key of a result, `""` when absent. */
  function SourceOf(r: Dict): string
  {
    if "source" in r && r["source"].Str? then r["source"].s else ""
  }

  function PlusForSpaces(query: string): string
  {
    ReplaceChar(query, ' ', '+')
  }

  // ---------------------------------------------------------------- Bing

  datatype BingRequest = BingRequest(q: string, count: int, market: string, safeSearch: string)

  /** The medical-site restricted query sent to Bing. */
  function BingQuery(query: string): string
  {
    query + " site:nih.gov OR site:who.int OR site:cdc.gov OR site:mayoclinic.org"
  }

  /** `_mock_search`: the one placeholder result. */
  function BingMock(query: string, stamp: string): (r: seq<Dict>)
    ensures |r| == 1 && SourceOf(r[0]) == "Mock Bing Search"
  {
    [map["title" := Str("Medical Information about " + query),
         "url" := Str("https://www.nih.gov/search?query=" + PlusForSpaces(query)),
         "snippet" := Str("Authoritative medical information about " + query + " from trusted sources."),
         "source" := Str("Mock Bing Search"),
         "timestamp" := Str(stamp)]]
  }

  /** One item of the `webPages.value` list of Bing's answer: its `name`, `url` and
      `snippet`, `None` where the item has no such key. */
  datatype BingItem = BingItem(name: Option<string>, url: Option<string>, snippet: Option<string>)

  /** `item.get(key)`: the text, or `None`. */
  function OrNull(v: Option<string>): Field
  {
    if v.Some? then Str(v.value) else Null
  }

  /** The result dictionary `search` builds for one answer item. */
  function BingResult(item: BingItem, stamp: string): Dict
  {
    map["title" := OrNull(item.name), "url" := OrNull(item.url), "snippet" := OrNull(item.snippet),
        "source" := Str("Bing Search"), "timestamp" := Str(stamp)]
  }

  /** The parse of Bing's answer: one result per item, in order. */
  function BingResults(items: seq<BingItem>, stamp: string): seq<Dict>
  {
    seq(|items|, i requires 0 <= i < |items| => BingResult(items[i], stamp))
  }

  /** Every parsed result comes from `Bing Search` and carries the parse time; its title is
      the item's name, and `None` exactly when the item has none. */
  lemma BingResultsShape(items: seq<BingItem>, stamp: string)
    ensures |BingResults(items, stamp)| == |items|
    ensures forall i :: 0 <= i < |items| ==>
      var r := BingResults(items, stamp)[i];
      && SourceOf(r) == "Bing Search" && "timestamp" in r && r["timestamp"] == Str(stamp)
      && "title" in r && (r["title"].Str? || r["title"].Null?)
      && (r["title"].Null? <==> items[i].name.None?)
      && (items[i].name.Some? ==> r["title"] == Str(items[i].name.value))
  {
  }

  function BingKey(query: string, count: int, market: string): string
  {
    CacheKey(query, [("count", Number(count)), ("market", Str(market))])
  }

  class BingSearchTool {
    /** The subscription key, `""` when not configured. */
    const apiKey: string
    const cache: ResultCache
    /** `_cache_key` on this tool's keyword arguments; every tool is built with `BingKey`. */
    const keyOf: (string, int, string) -> string
    /** `_mock_search`; every tool is built with `BingMock`. */
    const placeholder: (string, string) -> seq<Dict>
    /** The web request: the items of Bing's answer, or the failure. */
    const fetch: BingRequest -> Raises<seq<BingItem>>
    var requests: seq<BingRequest>

    constructor (apiKey: string, fetch: BingRequest -> Raises<seq<BingItem>>)
      ensures this.apiKey == apiKey && this.fetch == fetch && fresh(cache) && keyOf == BingKey && placeholder == BingMock
      ensures cache.entries == map[] && requests == []
    {
      this.apiKey := apiKey;
      keyOf := BingKey;
      placeholder := BingMock;
      this.fetch := fetch;
      cache := new ResultCache();
      requests := [];
    }

    /** Whether `search` goes to the network when the cache holds `entries`. */
    predicate Misses(entries: CacheMap, query: string, count: int, market: string)
    {
      apiKey != "" && keyOf(query, count, market) !in entries
    }

    /** What `search` returns when the cache holds `entries`. */
    function Answer(entries: CacheMap, query: string, count: int, market: string, safeSearch: string, stamp: string): seq<Dict>
    {
      if apiKey == "" then placeholder(query, stamp)
      else if keyOf(query, count, market) in entries then entries[keyOf(query, count, market)]
      else
        match fetch(BingRequest(BingQuery(query), count, market, safeSearch))
        case Returned(items) => BingResults(items, stamp)
        case Raised(_) => placeholder(query, stamp)
    }

    /** The cache after `search`: only a successful request adds an entry, the results as
        parsed at that time. */
    function CacheAfter(entries: CacheMap, query: string, count: int, market: string, safeSearch: string, stamp: string): CacheMap
    {
      if Misses(entries, query, count, market) && fetch(BingRequest(BingQuery(query), count, market, safeSearch)).Returned? then
        entries[keyOf(query, count, market) := BingResults(fetch(BingRequest(BingQuery(query), count, market, safeSearch)).value, stamp)]
      else entries
    }

    /** The requests `search` sends: one exactly on a miss. */
    function Sent(entries: CacheMap, query: string, count: int, market: string, safeSearch: string): seq<BingRequest>
    {
      if Misses(entries, query, count, market) then [BingRequest(BingQuery(query), count, market, safeSearch)] else []
    }

    /** `BingSearchTool.search`. */
    method Search(query: string, count: int, market: string, safeSearch: string, stamp: string) returns (r: seq<Dict>)
      modifies this, cache
      ensures r == Answer(old(cache.entries), query, count, market, safeSearch, stamp)
      ensures cache.entries == CacheAfter(old(cache.entries), query, count, market, safeSearch, stamp)
      ensures requests == old(requests) + Sent(old(cache.entries), query, count, market, safeSearch)
    {
      if apiKey == "" {
        return placeholder(query, stamp);
      }
      var key := keyOf(query, count, market);
      if key in cache.entries {
        return cache.entries[key];
      }
      var request := BingRequest(BingQuery(query), count, market, safeSearch);
      requests := requests + [request];
      var reply := fetch(request);
      match reply
      case Returned(items) =>
        var results := ParseItems(items, stamp);
        cache.entries := cache.entries[key := results];
        r := results;
      case Raised(_) =>
        r := placeholder(query, stamp);
    }

    /** The `results.append` loop over the answer's items. */
    method ParseItems(items: seq<BingItem>, stamp: string) returns (results: seq<Dict>)
      ensures results == BingResults(items, stamp)
    {
      results := [];
      for i := 0 to |items|
        invariant |results| == i
        invariant forall j :: 0 <= j < i ==> results[j] == BingResult(items[j], stamp)
      {
        results := results + [BingResult(items[i], stamp)];
      }
    }
  }

  /** Without a key the tool answers with its placeholder and neither caches nor sends. */
  lemma BingWithoutKey(t: BingSearchTool, entries: CacheMap, query: string, count: int, market: string, safeSearch: string, stamp: string)
    requires t.apiKey == "" && t.placeholder == BingMock
    ensures t.Answer(entries, query, count, market, safeSearch, stamp) == BingMock(query, stamp)
    ensures t.CacheAfter(entries, query, count, market, safeSearch, stamp) == entries
    ensures t.Sent(entries, query, count, market, safeSearch) == []
  {
  }

  /** A cached query is answered from the cache, which stays as it is, and sends nothing. */
  lemma BingCacheHit(t: BingSearchTool, entries: CacheMap, query: string, count: int, market: string, safeSearch: string, stamp: string)
    requires t.apiKey != "" && t.keyOf(query, count, market) in entries
    ensures t.Answer(entries, query, count, market, safeSearch, stamp) == entries[t.keyOf(query, count, market)]
    ensures t.CacheAfter(entries, query, count, market, safeSearch, stamp) == entries
    ensures t.Sent(entries, query, count, market, safeSearch) == []
  {
  }

  // ---------------------------------------------------------------- Medline

  datatype MedlineRequest = MedlineRequest(term: string, maxResults: int, sort: string, email: string, apiKey: string)

  /** One `esummary` article: its title, publication details and author objects, each
      `None` when the key is absent (an absent author list is empty). */
  datatype MedlineArticle = MedlineArticle(title: Option<Field>, authors: seq<Dict>, journal: Option<Field>, pubDate: Option<Field>)

  /** The summary of one id of the `esearch` list: the article, or `None` when the answer
      holds no article for it or an empty one. */
  datatype MedlineSummary = MedlineSummary(pmid: string, article: Option<MedlineArticle>)

  /** The two E-utilities requests with the decoding of their JSON answers: no matching
      ids, the summaries of the ids found in their order, or the failure. */
  datatype MedlineReply = NoIds | Articles(summaries: seq<MedlineSummary>) | RequestFailed(message: string)

  /** `_mock_medline_search`: the one placeholder article. */
  function MedlineMock(query: string, stamp: string): (r: seq<Dict>)
    ensures |r| == 1 && SourceOf(r[0]) == "Mock PubMed/Medline"
  {
    [map["pmid" := Str("12345678"),
         "title" := Str("Clinical Study on " + query),
         "authors" := Str("Smith J, Johnson M, Williams K"),
         "journal" := Str("Journal of Medical Research"),
         "pub_date" := Str("2024"),
         "url" := Str("https://pubmed.ncbi.nlm.nih.gov/?term=" + PlusForSpaces(query)),
         "source" := Str("Mock PubMed/Medline"),
         "timestamp" := Str(stamp)]]
  }

  function MedlineKey(query: string, maxResults: int, sort: string): string
  {
    CacheKey(query, [("max_results", Number(maxResults)), ("sort", Str(sort))])
  }

  /** The `name` of an author object as `get("name", "")` gives it. */
  function NameOf(author: Dict): Field
  {
    if "name" in author then author["name"] else Str("")
  }

  /** The list comprehension of `_format_authors`: the raw name of each author. */
  function AuthorNames(authors: seq<Dict>): (names: seq<Field>)
    ensures |names| == |authors|
    ensures forall i :: 0 <= i < |authors| ==> names[i] == NameOf(authors[i])
  {
    seq(|authors|, i requires 0 <= i < |authors| => NameOf(authors[i]))
  }

  function TextOf(f: Field): string
  {
    if f.Str? then f.s else ""
  }

  /** `sep.join(items)`, which raises `TypeError` for an item that is not text. */
  function JoinText(items: seq<Field>, sep: string): (r: Raises<string>)
    ensures r.Raised? <==> exists i :: 0 <= i < |items| && !items[i].Str?
    ensures r.Returned? ==> r.value == Join(seq(|items|, i requires 0 <= i < |items| => TextOf(items[i])), sep)
  {
    if forall i :: 0 <= i < |items| ==> items[i].Str? then
      Returned(Join(seq(|items|, i requires 0 <= i < |items| => TextOf(items[i])), sep))
    else Raised("TypeError: sequence item: expected str instance")
  }

  /** An author whose name is present and is not text: `join` cannot take it. */
  predicate BadName(author: Dict)
  {
    "name" in author && !author["name"].Str?
  }

  /** `_format_authors`: up to three names joined by `, `, then ` et al.` when there are
      more; `Unknown` for none. The join raises when a shown name is not text. */
  function FormatAuthors(authors: seq<Dict>): (r: Raises<string>)
    ensures |authors| == 0 ==> r == Returned("Unknown")
    ensures r.Raised? <==> exists i :: 0 <= i < |authors| && i < 3 && BadName(authors[i])
  {
    if |authors| == 0 then Returned("Unknown")
    else
      var shown := if |authors| > 3 then authors[..3] else authors;
      assert forall i :: 0 <= i < |shown| ==> shown[i] == authors[i];
      match JoinText(AuthorNames(shown), ", ")
      case Raised(m) => Raised(m)
      case Returned(formatted) => Returned(if |authors| > 3 then formatted + " et al." else formatted)
  }

  /** Authors with text names, or none, are shown by name; a missing name shows as `""`. */
  lemma FormatAuthorsNames(authors: seq<Dict>, names: seq<string>)
    requires 0 < |authors| <= 3 && |names| == |authors|
    requires forall i :: 0 <= i < |authors| ==> NameOf(authors[i]) == Str(names[i])
    ensures FormatAuthors(authors) == Returned(Join(names, ", "))
  {
    var items := AuthorNames(authors);
    assert seq(|items|, i requires 0 <= i < |items| => TextOf(items[i])) == names;
  }

  /** An author whose name is JSON `null` among the first three makes the join raise. */
  lemma FormatAuthorsNullName(authors: seq<Dict>, i: nat)
    requires i < |authors| && i < 3 && "name" in authors[i] && authors[i]["name"] == Null
    ensures FormatAuthors(authors).Raised?
  {
  }

  /** A long author list reads as its first three authors followed by ` et al.`, and raises
      exactly when they do. */
  lemma FormatAuthorsEtAl(authors: seq<Dict>)
    requires |authors| > 3
    ensures FormatAuthors(authors).Raised? <==> FormatAuthors(authors[..3]).Raised?
    ensures FormatAuthors(authors).Returned? ==> FormatAuthors(authors).value == FormatAuthors(authors[..3]).value + " et al."
  {
    assert authors[..3][..3] == authors[..3];
  }

  /** Only three names ever show: authors past the third do not change the text. */
  lemma FormatAuthorsIgnoresRest(a: seq<Dict>, b: seq<Dict>)
    requires |a| > 3 && |b| > 3 && a[..3] == b[..3]
    ensures FormatAuthors(a) == FormatAuthors(b)
  {
  }

  /** `title[:200]`: a prefix of text or of a list; any other value raises `TypeError`. */
  function Snippet(title: Field): (r: Raises<Field>)
    ensures r.Raised? <==> !(title.Str? || title.Strs?)
    ensures title.Str? ==> r == Returned(Str(PyPrefix(title.s, 200)))
    ensures title.Strs? ==> r == Returned(Strs(PyPrefix(title.items, 200)))
  {
    match title
    case Str(t) => Returned(Str(PyPrefix(t, 200)))
    case Strs(items) => Returned(Strs(PyPrefix(items, 200)))
    case _ => Raised("TypeError: object is not subscriptable")
  }

  function FieldOr(v: Option<Field>, default: Field): Field
  {
    if v.Some? then v.value else default
  }

  /** The result built for a present article, or the exception raised while building it. */
  function ArticleResult(pmid: string, a: MedlineArticle, stamp: string): (r: Raises<Dict>)
    ensures r.Raised? <==> FormatAuthors(a.authors).Raised? || Snippet(FieldOr(a.title, Str(""))).Raised?
    ensures r.Returned? ==>
      && SourceOf(r.value) == "PubMed/Medline"
      && "timestamp" in r.value && r.value["timestamp"] == Str(stamp)
      && "url" in r.value && r.value["url"] == Str("https://pubmed.ncbi.nlm.nih.gov/" + pmid + "/")
      && "title" in r.value && r.value["title"] == FieldOr(a.title, Str(""))
      && "snippet" in r.value && r.value["snippet"] == Snippet(FieldOr(a.title, Str(""))).value
      && "authors" in r.value && r.value["authors"] == Str(FormatAuthors(a.authors).value)
  {
    var title := FieldOr(a.title, Str(""));
    match FormatAuthors(a.authors)
    case Raised(m) => Raised(m)
    case Returned(authors) =>
      match Snippet(title)
      case Raised(m) => Raised(m)
      case Returned(snippet) =>
        Returned(map["pmid" := Str(pmid), "title" := title, "authors" := Str(authors),
                     "journal" := FieldOr(a.journal, Str("")), "pub_date" := FieldOr(a.pubDate, Str("")),
                     "url" := Str("https://pubmed.ncbi.nlm.nih.gov/" + pmid + "/"),
                     "snippet" := snippet, "source" := Str("PubMed/Medline"), "timestamp" := Str(stamp)])
  }

  /** What each id of the parse loop gives: `None` when it has no article, and otherwise
      the article's result or the exception raised while building it. */
  function Built(summaries: seq<MedlineSummary>, stamp: string): (r: seq<Option<Raises<Dict>>>)
    ensures |r| == |summaries|
    ensures forall i :: 0 <= i < |summaries| ==>
      r[i] == if summaries[i].article.Some? then Some(ArticleResult(summaries[i].pmid, summaries[i].article.value, stamp)) else None
  {
    seq(|summaries|, i requires 0 <= i < |summaries| =>
      if summaries[i].article.Some? then Some(ArticleResult(summaries[i].pmid, summaries[i].article.value, stamp)) else None)
  }

  /** A loop that appends each value given, skips each `None`, and stops at the first
      exception. */
  function Collect<T>(xs: seq<Option<Raises<T>>>): (r: Raises<seq<T>>)
    ensures r.Returned? ==> |r.value| <= |xs| && forall j :: 0 <= j < |r.value| ==> Some(Returned(r.value[j])) in xs
  {
    if |xs| == 0 then Returned([])
    else
      var last := xs[|xs| - 1];
      match Collect(xs[..|xs| - 1])
      case Raised(m) => Raised(m)
      case Returned(values) =>
        if last.None? then Returned(values)
        else if last.value.Raised? then Raised(last.value.message)
        else Returned(values + [last.value.value])
  }

  /** The loop raises exactly when one of its steps does. */
  lemma {:induction false} CollectRaise<T>(xs: seq<Option<Raises<T>>>)
    ensures Collect(xs).Raised? <==> exists i :: 0 <= i < |xs| && xs[i].Some? && xs[i].value.Raised?
  {
    if |xs| > 0 {
      var n := |xs| - 1;
      CollectRaise(xs[..n]);
      if !Collect(xs).Raised? {
        forall i | 0 <= i < |xs|
          ensures !(xs[i].Some? && xs[i].value.Raised?)
        {
          if i < n {
            assert xs[..n][i] == xs[i];
          }
        }
      } else if Collect(xs[..n]).Raised? {
        var i :| 0 <= i < n && xs[..n][i].Some? && xs[..n][i].value.Raised?;
        assert xs[i] == xs[..n][i];
      }
    }
  }

  /** Once a prefix raises, the whole loop raises with that exception. */
  lemma {:induction false} CollectRaisedPrefix<T>(xs: seq<Option<Raises<T>>>, k: nat)
    requires k <= |xs| && Collect(xs[..k]).Raised?
    ensures Collect(xs) == Collect(xs[..k])
    decreases |xs| - k
  {
    if k < |xs| {
      var init := xs[..|xs| - 1];
      assert init[..k] == xs[..k];
      CollectRaisedPrefix(init, k);
    } else {
      assert xs[..k] == xs;
    }
  }

  /** When every step gives a value, the loop gives all of them in order. */
  lemma {:induction false} CollectAll<T>(xs: seq<Option<Raises<T>>>, values: seq<T>)
    requires |values| == |xs| && forall i :: 0 <= i < |xs| ==> xs[i] == Some(Returned(values[i]))
    ensures Collect(xs) == Returned(values)
  {
    if |xs| > 0 {
      var n := |xs| - 1;
      CollectAll(xs[..n], values[..n]);
      assert values[..n] + [values[n]] == values;
    }
  }

  /** The parse loop over the summaries: ids without an article are skipped, and the first
      article that raises ends the parse. */
  function ParsedArticles(summaries: seq<MedlineSummary>, stamp: string): (r: Raises<seq<Dict>>)
    ensures r.Returned? ==> |r.value| <= |summaries|
    ensures r.Returned? ==> forall j :: 0 <= j < |r.value| ==> SourceOf(r.value[j]) == "PubMed/Medline"
  {
    var xs := Built(summaries, stamp);
    var r := Collect(xs);
    assert r.Returned? ==> forall j :: 0 <= j < |r.value| ==> SourceOf(r.value[j]) == "PubMed/Medline" by {
      if r.Returned? {
        forall j | 0 <= j < |r.value|
          ensures SourceOf(r.value[j]) == "PubMed/Medline"
        {
          var i :| 0 <= i < |xs| && xs[i] == Some(Returned(r.value[j]));
        }
      }
    }
    r
  }

  /** A summary whose article raises while its result is built. */
  predicate ArticleRaises(summary: MedlineSummary, stamp: string)
  {
    summary.article.Some? && ArticleResult(summary.pmid, summary.article.value, stamp).Raised?
  }

  /** The parse raises exactly when some present article raises. */
  lemma ParsedArticlesRaise(summaries: seq<MedlineSummary>, stamp: string)
    ensures ParsedArticles(summaries, stamp).Raised? <==> exists i :: 0 <= i < |summaries| && ArticleRaises(summaries[i], stamp)
  {
    var xs := Built(summaries, stamp);
    CollectRaise(xs);
    if ParsedArticles(summaries, stamp).Raised? {
      var i :| 0 <= i < |xs| && xs[i].Some? && xs[i].value.Raised?;
      assert ArticleRaises(summaries[i], stamp);
    }
  }

  /** When every id has an article and none raises, the parse gives each article's result,
      in the order of the ids. */
  lemma ParsedArticlesAll(summaries: seq<MedlineSummary>, stamp: string, results: seq<Dict>)
    requires |results| == |summaries|
    requires forall i :: 0 <= i < |summaries| ==>
      summaries[i].article.Some? && ArticleResult(summaries[i].pmid, summaries[i].article.value, stamp) == Returned(results[i])
    ensures ParsedArticles(summaries, stamp) == Returned(results)
  {
    CollectAll(Built(summaries, stamp), results);
  }

  class MedlineSearchTool {
    /** The NCBI key and contact e-mail, `""` when not configured. */
    const apiKey: string
    const email: string
    const cache: ResultCache
    /** `_cache_key` on this tool's keyword arguments; every tool is built with `MedlineKey`. */
    const keyOf: (string, int, string) -> string
    /** `_mock_medline_search`; every tool is built with `MedlineMock`. */
    const placeholder: (string, string) -> seq<Dict>
    const fetch: MedlineRequest -> MedlineReply
    var requests: seq<MedlineRequest>

    constructor (apiKey: string, email: string, fetch: MedlineRequest -> MedlineReply)
      ensures this.apiKey == apiKey && this.email == email && this.fetch == fetch && fresh(cache)
      ensures keyOf == MedlineKey && placeholder == MedlineMock && cache.entries == map[] && requests == []
    {
      this.apiKey := apiKey;
      this.email := email;
      this.fetch := fetch;
      keyOf := MedlineKey;
      placeholder := MedlineMock;
      cache := new ResultCache();
      requests := [];
    }

    /** Whether `search` sends a request when the cache holds `entries`. */
    predicate Misses(entries: CacheMap, query: string, maxResults: int, sort: string)
    {
      apiKey != "" && email != "" && keyOf(query, maxResults, sort) !in entries
    }

    function Request(query: string, maxResults: int, sort: string): MedlineRequest
    {
      MedlineRequest(query, maxResults, sort, email, apiKey)
    }

    /** What `search` returns when the cache holds `entries`. */
    function Answer(entries: CacheMap, query: string, maxResults: int, sort: string, stamp: string): seq<Dict>
    {
      if apiKey == "" || email == "" then placeholder(query, stamp)
      else if keyOf(query, maxResults, sort) in entries then entries[keyOf(query, maxResults, sort)]
      else
        match fetch(Request(query, maxResults, sort))
        case NoIds => []
        case Articles(summaries) =>
          var parsed := ParsedArticles(summaries, stamp);
          if parsed.Returned? then parsed.value else placeholder(query, stamp)
        case RequestFailed(_) => placeholder(query, stamp)
    }

    /** The cache after `search`: only articles parsed without an exception add an entry. */
    function CacheAfter(entries: CacheMap, query: string, maxResults: int, sort: string, stamp: string): CacheMap
    {
      if Misses(entries, query, maxResults, sort) then
        match fetch(Request(query, maxResults, sort))
        case Articles(summaries) =>
          var parsed := ParsedArticles(summaries, stamp);
          if parsed.Returned? then entries[keyOf(query, maxResults, sort) := parsed.value] else entries
        case _ => entries
      else entries
    }

    /** The requests `search` sends: one exactly on a miss. */
    function Sent(entries: CacheMap, query: string, maxResults: int, sort: string): seq<MedlineRequest>
    {
      if Misses(entries, query, maxResults, sort) then [Request(query, maxResults, sort)] else []
    }

    /** `MedlineSearchTool.search`. */
    method Search(query: string, maxResults: int, sort: string, stamp: string) returns (r: seq<Dict>)
      modifies this, cache
      ensures r == Answer(old(cache.entries), query, maxResults, sort, stamp)
      ensures cache.entries == CacheAfter(old(cache.entries), query, maxResults, sort, stamp)
      ensures requests == old(requests) + Sent(old(cache.entries), query, maxResults, sort)
    {
      if apiKey == "" || email == "" {
        return placeholder(query, stamp);
      }
      var key := keyOf(query, maxResults, sort);
      if key in cache.entries {
        return cache.entries[key];
      }
      var request := Request(query, maxResults, sort);
      requests := requests + [request];
      match fetch(request)
      case NoIds =>
        r := [];
      case Articles(summaries) =>
        var parsed := ParseSummaries(summaries, stamp);
        if parsed.Raised? {
          r := placeholder(query, stamp);
        } else {
          cache.entries := cache.entries[key := parsed.value];
          r := parsed.value;
        }
      case RequestFailed(_) =>
        r := placeholder(query, stamp);
    }

    /** The `results.append` loop over the ids; an exception ends it. */
    method ParseSummaries(summaries: seq<MedlineSummary>, stamp: string) returns (r: Raises<seq<Dict>>)
      ensures r == ParsedArticles(summaries, stamp)
    {
      ghost var xs := Built(summaries, stamp);
      var results: seq<Dict> := [];
      var i := 0;
      while i < |summaries|
        invariant 0 <= i <= |summaries|
        invariant Collect(xs[..i]) == Returned(results)
      {
        assert xs[..i + 1][..i] == xs[..i];
        var summary := summaries[i];
        if summary.article.Some? {
          var built := ArticleResult(summary.pmid, summary.article.value, stamp);
          if built.Raised? {
            CollectRaisedPrefix(xs, i + 1);
            return Raised(built.message);
          }
          results := results + [built.value];
        }
        i := i + 1;
      }
      assert xs[..i] == xs;
      r := Returned(results);
    }
  }

  /** An article that raises while its result is built (an author name that `join` cannot
      take, a title that cannot be sliced) is caught: the tool answers with its placeholder
      and caches nothing. */
  lemma MedlineParseFallsBack(t: MedlineSearchTool, entries: CacheMap, query: string, maxResults: int, sort: string, stamp: string,
                              i: nat, a: MedlineArticle)
    requires t.placeholder == MedlineMock && t.Misses(entries, query, maxResults, sort)
    requires t.fetch(t.Request(query, maxResults, sort)).Articles?
    requires var summaries := t.fetch(t.Request(query, maxResults, sort)).summaries;
      i < |summaries| && summaries[i].article == Some(a) && ArticleResult(summaries[i].pmid, a, stamp).Raised?
    ensures t.Answer(entries, query, maxResults, sort, stamp) == MedlineMock(query, stamp)
    ensures t.CacheAfter(entries, query, maxResults, sort, stamp) == entries
  {
    var summaries := t.fetch(t.Request(query, maxResults, sort)).summaries;
    assert ArticleRaises(summaries[i], stamp);
    ParsedArticlesRaise(summaries, stamp);
  }

  /** For instance, a shown author whose name is JSON `null` sends the tool to its placeholder. */
  lemma MedlineNullAuthorFallsBack(t: MedlineSearchTool, entries: CacheMap, query: string, maxResults: int, sort: string, stamp: string,
                                   i: nat, a: MedlineArticle, j: nat)
    requires t.placeholder == MedlineMock && t.Misses(entries, query, maxResults, sort)
    requires t.fetch(t.Request(query, maxResults, sort)).Articles?
    requires var summaries := t.fetch(t.Request(query, maxResults, sort)).summaries;
      i < |summaries| && summaries[i].article == Some(a)
    requires j < |a.authors| && j < 3 && "name" in a.authors[j] && a.authors[j]["name"] == Null
    ensures t.Answer(entries, query, maxResults, sort, stamp) == MedlineMock(query, stamp)
  {
    FormatAuthorsNullName(a.authors, j);
    MedlineParseFallsBack(t, entries, query, maxResults, sort, stamp, i, a);
  }

  /** Without a key or an e-mail the tool answers with its placeholder and sends nothing;
      a search that finds no ids answers `[]` and caches nothing. */
  lemma MedlineFallbacks(t: MedlineSearchTool, entries: CacheMap, query: string, maxResults: int, sort: string, stamp: string)
    requires t.placeholder == MedlineMock
    ensures (t.apiKey == "" || t.email == "") ==>
      t.Answer(entries, query, maxResults, sort, stamp) == MedlineMock(query, stamp)
      && t.CacheAfter(entries, query, maxResults, sort, stamp) == entries && t.Sent(entries, query, maxResults, sort) == []
    ensures t.Misses(entries, query, maxResults, sort) && t.fetch(t.Request(query, maxResults, sort)).NoIds? ==>
      t.Answer(entries, query, maxResults, sort, stamp) == [] && t.CacheAfter(entries, query, maxResults, sort, stamp) == entries
  {
  }

  /** A cached query is answered from the cache, which stays as it is, and sends nothing. */
  lemma MedlineCacheHit(t: MedlineSearchTool, entries: CacheMap, query: string, maxResults: int, sort: string, stamp: string)
    requires t.apiKey != "" && t.email != "" && t.keyOf(query, maxResults, sort) in entries
    ensures t.Answer(entries, query, maxResults, sort, stamp) == entries[t.keyOf(query, maxResults, sort)]
    ensures t.CacheAfter(entries, query, maxResults, sort, stamp) == entries
    ensures t.Sent(entries, query, maxResults, sort) == []
  {
  }

  // ---------------------------------------------------------------- WHO

  /** One curated WHO resource: the topic word it answers and its fact sheet. */
  datatype WhoTopic = WhoTopic(topic: string, title: string, url: string, snippet: string)

  const WhoTopics: seq<WhoTopic> := [
    WhoTopic("diabetes", "Diabetes - WHO Fact Sheet",
      "https://www.who.int/news-room/fact-sheets/detail/diabetes",
      "Key facts about diabetes from the World Health Organization"),
    WhoTopic("hypertension", "Hypertension - WHO Fact Sheet",
      "https://www.who.int/news-room/fact-sheets/detail/hypertension",
      "Global overview of hypertension statistics and prevention"),
    WhoTopic("covid", "Coronavirus disease (COVID-19) - WHO",
      "https://www.who.int/health-topics/coronavirus",
      "WHO guidance and resources on COVID-19")
  ]

  function WhoEntry(t: WhoTopic, stamp: string): (r: Dict)
    ensures SourceOf(r) == "WHO"
  {
    map["title" := Str(t.title), "url" := Str(t.url), "snippet" := Str(t.snippet),
        "source" := Str("WHO"), "timestamp" := Str(stamp)]
  }

  /** The generic entry for a query no curated topic matches. */
  function WhoGeneric(query: string, stamp: string): (r: Dict)
    ensures SourceOf(r) == "WHO"
  {
    map["title" := Str("WHO Health Topics - " + query),
        "url" := Str("https://www.who.int/health-topics/" + WhoSlug(query)),
        "snippet" := Str("World Health Organization information on " + query),
        "source" := Str("WHO"), "timestamp" := Str(stamp)]
  }

  /** The URL slug of the generic entry: the query lower-cased, spaces turned into `-`. */
  function WhoSlug(query: string): (slug: string)
    ensures |slug| == |query|
    ensures forall i :: 0 <= i < |query| ==> slug[i] == (if query[i] == ' ' then '-' else LowerChar(query[i]))
  {
    ReplaceChar(Lower(query), ' ', '-')
  }

  /** The entries of the topics (from `topics`) that occur in the lower-cased query, in table order. */
  function WhoMatches(topics: seq<WhoTopic>, lowered: string, stamp: string): (r: seq<Dict>)
    ensures forall x :: x in r ==> SourceOf(x) == "WHO"
    ensures |r| <= |topics|
  {
    if |topics| == 0 then []
    else
      var rest := WhoMatches(topics[1..], lowered, stamp);
      if Contains(lowered, topics[0].topic) then [WhoEntry(topics[0], stamp)] + rest else rest
  }

  /** What `_get_who_resources` returns. */
  function WhoResources(topics: seq<WhoTopic>, query: string, maxResults: int, stamp: string): (r: seq<Dict>)
    ensures forall x :: x in r ==> SourceOf(x) == "WHO"
    ensures maxResults >= 0 ==> |r| <= maxResults
  {
    var matches := WhoMatches(topics, Lower(query), stamp);
    var all := if |matches| == 0 then [WhoGeneric(query, stamp)] else matches;
    PyPrefix(all, maxResults)
  }

  /** No topic occurring in the query: no curated entry. */
  lemma {:induction false} WhoMatchesNone(topics: seq<WhoTopic>, lowered: string, stamp: string)
    requires forall i :: 0 <= i < |topics| ==> !Contains(lowered, topics[i].topic)
    ensures WhoMatches(topics, lowered, stamp) == []
  {
    if |topics| > 0 {
      assert forall i :: 0 <= i < |topics| - 1 ==> topics[1..][i] == topics[i + 1];
      WhoMatchesNone(topics[1..], lowered, stamp);
    }
  }

  /** A query naming diabetes gets the diabetes fact sheet first; one naming no topic gets
      the generic entry alone. */
  lemma WhoResourcesCases(query: string, stamp: string)
    ensures Contains(Lower(query), "diabetes") ==>
      WhoResources(WhoTopics, query, 5, stamp)[0] == WhoEntry(WhoTopics[0], stamp)
    ensures (forall i :: 0 <= i < |WhoTopics| ==> !Contains(Lower(query), WhoTopics[i].topic)) ==>
      WhoResources(WhoTopics, query, 5, stamp) == [WhoGeneric(query, stamp)]
  {
    var lowered := Lower(query);
    if forall i :: 0 <= i < |WhoTopics| ==> !Contains(lowered, WhoTopics[i].topic) {
      WhoMatchesNone(WhoTopics, lowered, stamp);
    }
  }

  /** `_get_who_resources`, the loop over the curated table. */
  method GetWhoResources(topics: seq<WhoTopic>, query: string, maxResults: int, stamp: string) returns (r: seq<Dict>)
    ensures r == WhoResources(topics, query, maxResults, stamp)
  {
    var results: seq<Dict> := [];
    var lowered := Lower(query);
    var i := 0;
    while i < |topics|
      invariant 0 <= i <= |topics|
      invariant results + WhoMatches(topics[i..], lowered, stamp) == WhoMatches(topics, lowered, stamp)
    {
      assert topics[i..][1..] == topics[i + 1..];
      if Contains(lowered, topics[i].topic) {
        results := results + [WhoEntry(topics[i], stamp)];
      }
      i := i + 1;
    }
    if |results| == 0 {
      results := [WhoGeneric(query, stamp)];
    }
    r := PyPrefix(results, maxResults);
  }

  function WhoKey(query: string, maxResults: int): string
  {
    CacheKey(query, [("max_results", Number(maxResults))])
  }

  class WhoSearchTool {
    const cache: ResultCache
    /** The curated table `_get_who_resources` consults; every tool is built with
        `WhoTopics`. */
    const topics: seq<WhoTopic>
    /** `_cache_key` on this tool's keyword arguments; every tool is built with `WhoKey`. */
    const keyOf: (string, int) -> string

    constructor ()
      ensures fresh(cache) && cache.entries == map[] && topics == WhoTopics && keyOf == WhoKey
    {
      cache := new ResultCache();
      topics := WhoTopics;
      keyOf := WhoKey;
    }

    /** What `search` returns when the cache holds `entries`. */
    function Answer(entries: CacheMap, query: string, maxResults: int, stamp: string): seq<Dict>
    {
      if keyOf(query, maxResults) in entries then entries[keyOf(query, maxResults)]
      else WhoResources(topics, query, maxResults, stamp)
    }

    /** The cache after `search`: the answer is stored whether or not it was there. */
    function CacheAfter(entries: CacheMap, query: string, maxResults: int, stamp: string): CacheMap
    {
      entries[keyOf(query, maxResults) := Answer(entries, query, maxResults, stamp)]
    }

    /** `WHOSearchTool.search`: from the cache, or computed and always cached. */
    method Search(query: string, maxResults: int, stamp: string) returns (r: seq<Dict>)
      modifies cache
      ensures r == Answer(old(cache.entries), query, maxResults, stamp)
      ensures cache.entries == CacheAfter(old(cache.entries), query, maxResults, stamp)
    {
      var key := keyOf(query, maxResults);
      if key in cache.entries {
        r := cache.entries[key];
        return;
      }
      r := GetWhoResources(topics, query, maxResults, stamp);
      cache.entries := cache.entries[key := r];
    }
  }

  // ---------------------------------------------------------------- Ranking

  /** `rank_result`: WHO first, then Medline/PubMed, then the rest. */
  function Rank(r: Dict): (k: nat)
    ensures k <= 2
  {
    var source := SourceOf(r);
    if Contains(source, "WHO") then 0
    else if Contains(source, "Medline") || Contains(source, "PubMed") then 1
    else 2
  }

  /** The trust order of the sources the tools produce: WHO entries first, PubMed's
      articles and placeholder next, Bing's results and placeholder last. */
  lemma RankOfSources(t: WhoTopic, query: string, stamp: string, medlineResult: Dict, bingResult: Dict)
    requires SourceOf(medlineResult) == "PubMed/Medline" && SourceOf(bingResult) == "Bing Search"
    ensures Rank(WhoEntry(t, stamp)) == 0 && Rank(WhoGeneric(query, stamp)) == 0
    ensures Rank(MedlineMock(query, stamp)[0]) == 1 && Rank(medlineResult) == 1
    ensures Rank(BingMock(query, stamp)[0]) == 2 && Rank(bingResult) == 2
  {
    assert OccursAt("WHO", "WHO", 0);
    var pubmed := "Mock PubMed/Medline";
    NotContains(pubmed, "WHO", 0);
    assert OccursAt(pubmed, "PubMed", 5);
    var articles := "PubMed/Medline";
    NotContains(articles, "WHO", 0);
    assert OccursAt(articles, "PubMed", 0);
    var mock := "Mock Bing Search";
    NotContains(mock, "WHO", 0);
    NotContains(mock, "Medline", 3);
    NotContains(mock, "PubMed", 0);
    var bing := "Bing Search";
    NotContains(bing, "WHO", 0);
    NotContains(bing, "Medline", 3);
    NotContains(bing, "PubMed", 0);
  }

  /** The elements of `xs` whose key under `f` is `k`, in their original order. */
  function Keep<T>(xs: seq<T>, f: T -> nat, k: nat): (r: seq<T>)
    ensures |r| <= |xs|
  {
    if |xs| == 0 then []
    else if f(xs[0]) == k then [xs[0]] + Keep(xs[1..], f, k)
    else Keep(xs[1..], f, k)
  }

  /** Only elements of `xs` with key `k` are kept. */
  lemma {:induction false} KeepMembers<T>(xs: seq<T>, f: T -> nat, k: nat)
    ensures forall x :: x in Keep(xs, f, k) ==> x in xs && f(x) == k
  {
    if |xs| > 0 {
      KeepMembers(xs[1..], f, k);
    }
  }

  /** Keys `0`, `1` and `2` between them keep every element once. */
  lemma {:induction false} KeepSplit<T>(xs: seq<T>, f: T -> nat)
    requires forall x :: f(x) <= 2
    ensures multiset(xs) == multiset(Keep(xs, f, 0)) + multiset(Keep(xs, f, 1)) + multiset(Keep(xs, f, 2))
  {
    if |xs| > 0 {
      var t := xs[1..];
      KeepSplit(t, f);
      assert xs == [xs[0]] + t;
      assert multiset(xs) == multiset{xs[0]} + multiset(t);
    }
  }

  lemma {:induction false} KeepOfKeep<T>(xs: seq<T>, f: T -> nat, k: nat, k': nat)
    ensures Keep(Keep(xs, f, k), f, k') == if k == k' then Keep(xs, f, k) else []
  {
    if |xs| > 0 {
      KeepOfKeep(xs[1..], f, k, k');
    }
  }

  lemma {:induction false} KeepAppend<T>(a: seq<T>, b: seq<T>, f: T -> nat, k: nat)
    ensures Keep(a + b, f, k) == Keep(a, f, k) + Keep(b, f, k)
  {
    if |a| > 0 {
      assert (a + b)[1..] == a[1..] + b;
      KeepAppend(a[1..], b, f, k);
    } else {
      assert a + b == b;
    }
  }

  lemma {:induction false} KeepEmpty<T>(t: seq<T>, f: T -> nat, k: nat)
    requires forall i :: 0 <= i < |t| ==> f(t[i]) != k
    ensures Keep(t, f, k) == []
  {
    if |t| > 0 {
      assert forall i :: 0 <= i < |t| - 1 ==> t[1..][i] == t[i + 1];
      KeepEmpty(t[1..], f, k);
    }
  }

  /** The keys under `f` never decrease along `ys`. */
  predicate Ascending<T>(ys: seq<T>, f: T -> nat)
  {
    forall i, j :: 0 <= i < j < |ys| ==> f(ys[i]) <= f(ys[j])
  }

  lemma AscendingTail<T>(ys: seq<T>, f: T -> nat)
    requires Ascending(ys, f) && |ys| > 0
    ensures Ascending(ys[1..], f)
    ensures forall i :: 0 <= i < |ys| - 1 ==> f(ys[1..][i]) >= f(ys[0])
  {
    var t := ys[1..];
    forall i | 0 <= i < |t| ensures f(t[i]) >= f(ys[0]) {
      assert t[i] == ys[i + 1];
    }
    forall i, j | 0 <= i < j < |t| ensures f(t[i]) <= f(t[j]) {
      assert t[i] == ys[i + 1] && t[j] == ys[j + 1];
    }
  }

  lemma ConsAssoc<T>(h: T, a: seq<T>, b: seq<T>, c: seq<T>)
    ensures ([h] + a) + b + c == [h] + (a + b + c)
    ensures [] + ([h] + a) + b == [h] + (a + b)
  {
  }

  lemma EmptyLeft<T>(a: seq<T>, b: seq<T>, c: seq<T>)
    requires a == []
    ensures a + b + c == b + c && a + b == b
  {
  }

  /** The three ways a list whose tail is already split by key extends by its head. */
  lemma SplitsHead0<T>(ys: seq<T>, f: T -> nat)
    requires |ys| > 0 && f(ys[0]) == 0
    requires ys[1..] == Keep(ys[1..], f, 0) + Keep(ys[1..], f, 1) + Keep(ys[1..], f, 2)
    ensures ys == Keep(ys, f, 0) + Keep(ys, f, 1) + Keep(ys, f, 2)
  {
    var t := ys[1..];
    var a, b, c := Keep(t, f, 0), Keep(t, f, 1), Keep(t, f, 2);
    assert Keep(ys, f, 0) == [ys[0]] + a && Keep(ys, f, 1) == b && Keep(ys, f, 2) == c;
    ConsAssoc(ys[0], a, b, c);
    assert ys == [ys[0]] + t;
  }

  lemma SplitsHead1<T>(ys: seq<T>, f: T -> nat)
    requires |ys| > 0 && f(ys[0]) == 1 && Keep(ys[1..], f, 0) == []
    requires ys[1..] == Keep(ys[1..], f, 0) + Keep(ys[1..], f, 1) + Keep(ys[1..], f, 2)
    ensures ys == Keep(ys, f, 0) + Keep(ys, f, 1) + Keep(ys, f, 2)
  {
    var t := ys[1..];
    var a, b, c := Keep(t, f, 0), Keep(t, f, 1), Keep(t, f, 2);
    assert Keep(ys, f, 0) == [] && Keep(ys, f, 1) == [ys[0]] + b && Keep(ys, f, 2) == c;
    EmptyLeft(a, b, c);
    ConsAssoc(ys[0], b, c, []);
    assert ys == [ys[0]] + t;
  }

  lemma SplitsHead2<T>(ys: seq<T>, f: T -> nat)
    requires |ys| > 0 && f(ys[0]) == 2 && Keep(ys[1..], f, 0) == [] && Keep(ys[1..], f, 1) == []
    requires ys[1..] == Keep(ys[1..], f, 0) + Keep(ys[1..], f, 1) + Keep(ys[1..], f, 2)
    ensures ys == Keep(ys, f, 0) + Keep(ys, f, 1) + Keep(ys, f, 2)
  {
    var t := ys[1..];
    var a, b, c := Keep(t, f, 0), Keep(t, f, 1), Keep(t, f, 2);
    assert Keep(ys, f, 0) == [] && Keep(ys, f, 1) == [] && Keep(ys, f, 2) == [ys[0]] + c;
    EmptyLeft(a, b, c);
    EmptyLeft(b, c, []);
    assert ys == [ys[0]] + t;
  }

  /** A list ascending by a key below `3` is its keys' runs laid end to end. */
  lemma {:induction false} AscendingSplits<T>(ys: seq<T>, f: T -> nat)
    requires Ascending(ys, f) && forall x :: f(x) <= 2
    ensures ys == Keep(ys, f, 0) + Keep(ys, f, 1) + Keep(ys, f, 2)
  {
    if |ys| > 0 {
      var t := ys[1..];
      AscendingTail(ys, f);
      AscendingSplits(t, f);
      var k := f(ys[0]);
      if k == 0 {
        SplitsHead0(ys, f);
      } else if k == 1 {
        KeepEmpty(t, f, 0);
        SplitsHead1(ys, f);
      } else {
        KeepEmpty(t, f, 0);
        KeepEmpty(t, f, 1);
        SplitsHead2(ys, f);
      }
    }
  }

  /** The results of one rank, in their original order. */
  function OfRank(xs: seq<Dict>, k: nat): (r: seq<Dict>)
    ensures forall x :: x in r ==> x in xs && Rank(x) == k
    ensures |r| <= |xs|
  {
    KeepMembers(xs, Rank, k);
    Keep(xs, Rank, k)
  }

  lemma OfRankSplit(xs: seq<Dict>)
    ensures multiset(xs) == multiset(OfRank(xs, 0)) + multiset(OfRank(xs, 1)) + multiset(OfRank(xs, 2))
  {
    KeepSplit(xs, Rank);
  }

  /** `sorted(xs, key=rank_result)`: Python's sort is stable, so each rank keeps its order. */
  function RankSort(xs: seq<Dict>): (r: seq<Dict>)
    ensures multiset(r) == multiset(xs) && |r| == |xs|
  {
    OfRankSplit(xs);
    var r := OfRank(xs, 0) + OfRank(xs, 1) + OfRank(xs, 2);
    assert |multiset(r)| == |multiset(xs)|;
    r
  }

  predicate RanksAscending(xs: seq<Dict>)
  {
    Ascending(xs, Rank)
  }

  /** The sort keeps the order of equal ranks. */
  lemma RankSortStable(xs: seq<Dict>, k: nat)
    ensures OfRank(RankSort(xs), k) == OfRank(xs, k)
  {
    var a, b, c := OfRank(xs, 0), OfRank(xs, 1), OfRank(xs, 2);
    KeepAppend(a + b, c, Rank, k);
    KeepAppend(a, b, Rank, k);
    KeepOfKeep(xs, Rank, 0, k);
    KeepOfKeep(xs, Rank, 1, k);
    KeepOfKeep(xs, Rank, 2, k);
    if k > 2 {
      KeepEmpty(xs, Rank, k);
    }
  }

  /** Where an index of the sorted list falls, and so its rank. */
  lemma RankSortAt(xs: seq<Dict>, i: int)
    requires 0 <= i < |RankSort(xs)|
    ensures Rank(RankSort(xs)[i]) == if i < |OfRank(xs, 0)| then 0
      else if i < |OfRank(xs, 0)| + |OfRank(xs, 1)| then 1 else 2
  {
    var a, b, c := OfRank(xs, 0), OfRank(xs, 1), OfRank(xs, 2);
    var s := RankSort(xs);
    if i < |a| {
      assert s[i] == a[i] && a[i] in a;
    } else if i < |a| + |b| {
      assert s[i] == b[i - |a|] && b[i - |a|] in b;
    } else {
      assert s[i] == c[i - |a| - |b|] && c[i - |a| - |b|] in c;
    }
  }

  /** The trust-rank sort reorders without losing or adding results, puts ranks in
      ascending order and keeps the order of equal ranks. */
  lemma RankSortSpec(xs: seq<Dict>)
    ensures multiset(RankSort(xs)) == multiset(xs)
    ensures RanksAscending(RankSort(xs))
    ensures forall k: nat :: OfRank(RankSort(xs), k) == OfRank(xs, k)
  {
    var s := RankSort(xs);
    forall k: nat ensures OfRank(s, k) == OfRank(xs, k) {
      RankSortStable(xs, k);
    }
    forall i, j | 0 <= i < j < |s| ensures Rank(s[i]) <= Rank(s[j]) {
      RankSortAt(xs, i);
      RankSortAt(xs, j);
    }
  }

  /** The trust-rank sort is the only ordering that ascends by rank and keeps the order of
      equal ranks: any such ordering of the results is this one. */
  lemma RankSortUnique(xs: seq<Dict>, ys: seq<Dict>)
    requires RanksAscending(ys)
    requires forall k: nat :: OfRank(ys, k) == OfRank(xs, k)
    ensures ys == RankSort(xs)
  {
    AscendingSplits(ys, Rank);
    assert OfRank(ys, 0) == OfRank(xs, 0) && OfRank(ys, 1) == OfRank(xs, 1) && OfRank(ys, 2) == OfRank(xs, 2);
  }

  /** `get_combined_results` on the three result lists: Bing, Medline and WHO in that
      order, ranked, then cut to `max_total_results`. */
  function Combine(bing: seq<Dict>, medline: seq<Dict>, who: seq<Dict>, maxTotal: int): (r: seq<Dict>)
    ensures maxTotal >= 0 ==> |r| == if maxTotal <= |bing| + |medline| + |who| then maxTotal else |bing| + |medline| + |who|
    ensures |r| <= |bing| + |medline| + |who|
    ensures r == RankSort(bing + medline + who)[..|r|]
  {
    PyPrefix(RankSort(bing + medline + who), maxTotal)
  }

  /** The combined list is a prefix of the ranked list, ascends by rank, and holds no result
      that none of the sources returned. */
  lemma CombineSpec(bing: seq<Dict>, medline: seq<Dict>, who: seq<Dict>, maxTotal: int)
    ensures RanksAscending(Combine(bing, medline, who, maxTotal))
    ensures forall x :: x in Combine(bing, medline, who, maxTotal) ==> x in bing || x in medline || x in who
  {
    var all := bing + medline + who;
    RankSortSpec(all);
    var r := Combine(bing, medline, who, maxTotal);
    var s := RankSort(all);
    forall x | x in r ensures x in bing || x in medline || x in who {
      assert x in s;
      assert x in multiset(s);
      assert x in multiset(all);
    }
    forall i, j | 0 <= i < j < |r| ensures Rank(r[i]) <= Rank(r[j]) {
      assert r[i] == s[i] && r[j] == s[j];
    }
  }

  /** What the three tools hold: each cache and each request log. */
  datatype SearchState = SearchState(
    bingCache: map<string, seq<Dict>>, bingRequests: seq<BingRequest>,
    medlineCache: map<string, seq<Dict>>, medlineRequests: seq<MedlineRequest>,
    whoCache: map<string, seq<Dict>>)

  /** What `search_all` returns: each source's own list. */
  datatype AllResults = AllResults(bing: seq<Dict>, medline: seq<Dict>, who: seq<Dict>)

  class MedicalSearchAggregator {
    const bing: BingSearchTool
    const medline: MedlineSearchTool
    const who: WhoSearchTool

    ghost predicate Valid()
    {
      bing.cache != medline.cache && bing.cache != who.cache && medline.cache != who.cache
    }

    constructor (bing: BingSearchTool, medline: MedlineSearchTool, who: WhoSearchTool)
      requires bing.cache != medline.cache && bing.cache != who.cache && medline.cache != who.cache
      ensures Valid() && this.bing == bing && this.medline == medline && this.who == who
    {
      this.bing := bing;
      this.medline := medline;
      this.who := who;
    }

    /** The tools' caches and request logs. */
    function State(): SearchState
      reads bing, bing.cache, medline, medline.cache, who.cache
    {
      SearchState(bing.cache.entries, bing.requests, medline.cache.entries, medline.requests, who.cache.entries)
    }

    /** What `search_all(query, n)` returns from the tools' state `s`. */
    function AllAnswers(s: SearchState, query: string, perSource: int, stamp: string): AllResults
    {
      AllResults(bing.Answer(s.bingCache, query, perSource, "en-US", "Moderate", stamp),
                 medline.Answer(s.medlineCache, query, perSource, "relevance", stamp),
                 who.Answer(s.whoCache, query, perSource, stamp))
    }

    /** The caches and request logs `search_all(query, n)` leaves behind from state `s`. */
    function StateAfter(s: SearchState, query: string, perSource: int, stamp: string): SearchState
    {
      SearchState(
        bing.CacheAfter(s.bingCache, query, perSource, "en-US", "Moderate", stamp),
        s.bingRequests + bing.Sent(s.bingCache, query, perSource, "en-US", "Moderate"),
        medline.CacheAfter(s.medlineCache, query, perSource, "relevance", stamp),
        s.medlineRequests + medline.Sent(s.medlineCache, query, perSource, "relevance"),
        who.CacheAfter(s.whoCache, query, perSource, stamp))
    }

    /** `search_all`. */
    method SearchAll(query: string, perSource: int, stamp: string) returns (r: AllResults)
      requires Valid()
      modifies bing, bing.cache, medline, medline.cache, who.cache
      ensures r == AllAnswers(old(State()), query, perSource, stamp)
      ensures State() == StateAfter(old(State()), query, perSource, stamp)
    {
      var b := bing.Search(query, perSource, "en-US", "Moderate", stamp);
      var m := medline.Search(query, perSource, "relevance", stamp);
      var w := who.Search(query, perSource, stamp);
      r := AllResults(b, m, w);
    }

    /** What `get_combined_results(query, max_total_results)` returns from the tools' state `s`. */
    function Combined(s: SearchState, query: string, maxTotal: int, stamp: string): seq<Dict>
    {
      var all := AllAnswers(s, query, 5, stamp);
      Combine(all.bing, all.medline, all.who, maxTotal)
    }

    /** `get_combined_results`. */
    method GetCombinedResults(query: string, maxTotal: int, stamp: string) returns (r: seq<Dict>)
      requires Valid()
      modifies bing, bing.cache, medline, medline.cache, who.cache
      ensures r == Combined(old(State()), query, maxTotal, stamp)
      ensures State() == StateAfter(old(State()), query, 5, stamp)
    {
      var all := SearchAll(query, 5, stamp);
      var lists := [all.bing, all.medline, all.who];
      var combined: seq<Dict> := [];
      for i := 0 to 3
        invariant combined == if i == 0 then [] else if i == 1 then all.bing
          else if i == 2 then all.bing + all.medline else all.bing + all.medline + all.who
      {
        combined := combined + lists[i];
      }
      r := PyPrefix(RankSort(combined), maxTotal);
    }

    /** `clear_all_caches`. */
    method ClearAllCaches()
      requires Valid()
      modifies bing.cache, medline.cache, who.cache
      ensures bing.cache.entries == map[] && medline.cache.entries == map[] && who.cache.entries == map[]
    {
      bing.cache.Clear();
      medline.cache.Clear();
      who.cache.Clear();
    }
  }
}
