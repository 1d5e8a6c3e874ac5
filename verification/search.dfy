/** The web-search tool shared by the providers: configuration with environment
    fallback, the clamp on the number of results, the request a query sends, and the
    text `queryStringify` makes of the results. The HTTP round trip is outside the
    model: its outcome (the decoded JSON or the exception) is a parameter. */
module Search {
  import opened PyValue
  import Baidu
  import Brave

  datatype Provider = BaiduProvider | BraveProvider

  /** The fields of the configuration the tools read. */
  datatype WebSearchConfig = WebSearchConfig(provider: string, apiKey: Option<string>,
                                             urlBase: Option<string>, maxResults: int)

  datatype Verb = HttpGet | HttpPost

  /** An HTTP call: for GET the payload is sent as query parameters, for POST as the
      JSON body. */
  datatype HttpRequest = HttpRequest(verb: Verb, url: string, headers: map<string, string>,
                                     payload: Json, timeoutSeconds: int)

  /** What `query` sent (nothing when it failed before the request) and what it
      returned or raised. */
  datatype QueryRun = QueryRun(sent: Option<HttpRequest>, result: Outcome<Json>)

  /** The class default of `limit_results`, which Brave keeps. */
  const DefaultLimitResults := 10
  const TimeoutSeconds := 10

  /** `s or default` for an optional string. */
  function OrElse(s: Option<string>, default: string): (r: string)
    ensures s.Some? && s.value != "" ==> r == s.value
    ensures s.None? || s.value == "" ==> r == default
    ensures r == "" ==> default == ""
  {
    if s.Some? && s.value != "" then s.value else default
  }

  /** `config.api_key or os.environ.get(envName, "")`. */
  function ResolveApiKey(configured: Option<string>, env: map<string, string>, envName: string): (key: string)
    ensures configured.Some? && configured.value != "" ==> key == configured.value
    ensures configured.None? || configured.value == "" ==> key == (if envName in env then env[envName] else "")
  {
    OrElse(configured, if envName in env then env[envName] else "")
  }

  /** The key is empty exactly when neither the configuration nor the environment
      gives a non-empty one. */
  lemma ApiKeyMissingIff(configured: Option<string>, env: map<string, string>, envName: string)
    ensures ResolveApiKey(configured, env, envName) == "" <==>
            (configured.None? || configured.value == "") && (envName !in env || env[envName] == "")
  {
  }

  class SearchTool {
    const provider: Provider
    const name: string
    const envName: string
    const urlBase: string
    const apiKey: string
    const maxResults: int
    const limitResults: int

    /** The provider defaults each constructor sets. */
    ghost predicate Valid() {
      && (provider == BaiduProvider ==> envName == Baidu.EnvName && limitResults == Baidu.LimitResults)
      && (provider == BraveProvider ==> envName == Brave.EnvName && limitResults == DefaultLimitResults)
      && urlBase != ""
    }

    /** `BaiduSearchTool(config)`. Its own `name = "baidu"` is overwritten by the base
        initialiser, so the name is the configured provider. */
    constructor ForBaidu(config: WebSearchConfig, env: map<string, string>)
      ensures Valid() && provider == BaiduProvider
      ensures name == config.provider && maxResults == config.maxResults
      ensures apiKey == ResolveApiKey(config.apiKey, env, Baidu.EnvName)
      ensures urlBase == OrElse(config.urlBase, Baidu.Endpoint)
    {
      provider := BaiduProvider;
      envName := Baidu.EnvName;
      limitResults := Baidu.LimitResults;
      name := config.provider;
      apiKey := ResolveApiKey(config.apiKey, env, Baidu.EnvName);
      maxResults := config.maxResults;
      urlBase := OrElse(config.urlBase, Baidu.Endpoint);
    }

    /** `BraveSearchTool(config)`; `limit_results` keeps the class default. */
    constructor ForBrave(config: WebSearchConfig, env: map<string, string>)
      ensures Valid() && provider == BraveProvider
      ensures name == config.provider && maxResults == config.maxResults
      ensures apiKey == ResolveApiKey(config.apiKey, env, Brave.EnvName)
      ensures urlBase == OrElse(config.urlBase, Brave.Endpoint)
    {
      provider := BraveProvider;
      envName := Brave.EnvName;
      limitResults := DefaultLimitResults;
      name := config.provider;
      apiKey := ResolveApiKey(config.apiKey, env, Brave.EnvName);
      maxResults := config.maxResults;
      urlBase := OrElse(config.urlBase, Brave.Endpoint);
    }

    /** `top_k`: `min(max(count or max_results, 1), limit_results)`. */
    function TopK(count: Option<int>): (k: int)
      ensures k <= limitResults
      ensures limitResults >= 1 ==> 1 <= k
      ensures count.Some? && 1 <= count.value <= limitResults ==> k == count.value
      ensures count.Some? && count.value < 0 && limitResults >= 1 ==> k == 1
    {
      var requested := if count.Some? && count.value != 0 then count.value else maxResults;
      var atLeastOne := if requested < 1 then 1 else requested;
      if atLeastOne < limitResults then atLeastOne else limitResults
    }

    function Headers(): (h: map<string, string>) {
      match provider
      case BaiduProvider => Baidu.Headers(apiKey)
      case BraveProvider => Brave.Headers(apiKey)
    }

    function Body(query: string, count: Option<int>): Json {
      match provider
      case BaiduProvider => Baidu.Body(query, TopK(count))
      case BraveProvider => Brave.Body(query, TopK(count))
    }

    /** The HTTP call `request` makes: a POST of the JSON body to Baidu, a GET with
        query parameters to Brave, both with a ten-second timeout. */
    function Call(query: string, count: Option<int>): (r: HttpRequest)
      ensures r.url == urlBase && r.headers == Headers() && r.payload == Body(query, count)
      ensures r.verb == (if provider == BaiduProvider then HttpPost else HttpGet)
      ensures r.timeoutSeconds == TimeoutSeconds
    {
      HttpRequest(if provider == BaiduProvider then HttpPost else HttpGet,
                  urlBase, Headers(), Body(query, count), TimeoutSeconds)
    }

    /** What `request` returns for the decoded reply. */
    function Results(reply: Json): Outcome<Json> {
      match provider
      case BaiduProvider => Baidu.Results(reply)
      case BraveProvider => Brave.Results(reply)
    }

    /** The exception `query` raises when no API key is configured. */
    function MissingKey(): (e: Exc)
      ensures e.typeName == "Exception"
    {
      Exc("Exception", "Error: current provider " + name +
                       " , both config.json[tools.web.search.apiKey] and env[" + envName +
                       "] are not configured")
    }

    /** `query`, where `reply` is the outcome of the HTTP round trip (including
        `raise_for_status` and JSON decoding). */
    function Query(query: string, count: Option<int>, reply: Outcome<Json>): (run: QueryRun)
      ensures run.sent.Some? <==> apiKey != ""
      ensures apiKey == "" ==> run.result == Raised(MissingKey())
      ensures apiKey != "" ==> run.sent == Some(Call(query, count))
      ensures apiKey != "" && reply.Raised? ==> run.result == Raised(reply.exc)
      ensures apiKey != "" && reply.Returned? ==> run.result == Results(reply.value)
    {
      if apiKey == "" then QueryRun(None, Raised(MissingKey()))
      else
        QueryRun(Some(Call(query, count)),
                 match reply
                 case Raised(e) => Raised(e)
                 case Returned(decoded) => Results(decoded))
    }

    /** `queryStringify`: the query's results as text, or the text of the exception the
        query raised. */
    method QueryStringify(query: string, count: Option<int>, reply: Outcome<Json>) returns (o: Outcome<string>)
      ensures o == Stringify(query, Query(query, count, reply).result)
    {
      var run := Query(query, count, reply);
      if run.result.Raised? {
        var e := run.result.exc;
        return Returned(ErrorText(e));
      }
      var results := run.result.value;
      if !Truthy(results) {
        return Returned("No results for: " + query);
      }
      var iteration := Iterate(results);
      if iteration.Raised? {
        return Raised(iteration.exc);
      }
      o := FormatListing(query, iteration.value);
    }
  }

  /** The `for i, item in enumerate(results, 1)` loop that builds the listing. */
  method FormatListing(query: string, items: seq<Json>) returns (o: Outcome<string>)
    ensures o == Listing(query, items)
  {
    var lines := [Header(query)];
    var i := 0;
    while i < |items|
      invariant 0 <= i <= |items|
      invariant forall j | 0 <= j < i :: items[j].JObj?
      invariant lines == [Header(query)] + EntryLines(Objects(items[..i]), 1)
    {
      if !items[i].JObj? {
        ListingStops(query, items, i);
        return Raised(NoGet(items[i]));
      }
      var item := items[i].fields;
      ListingGrows(Header(query), lines, Objects(items[..i]), item);
      ObjectsSnoc(items, i);
      lines := AppendEntry(lines, i + 1, item);
      i := i + 1;
    }
    ListingStops(query, items, i);
    o := Returned(Join("\n", lines));
  }

  /** One turn of the loop: the title line, then the description line when the
      description is truthy. */
  method AppendEntry(lines: seq<string>, n: nat, item: seq<(string, Json)>) returns (out: seq<string>)
    ensures out == lines + Entry(n, item)
  {
    var title := Get(item, "title", JStr(""));
    var url := Get(item, "url", JStr(""));
    var desc := Get(item, "description", JStr(""));
    out := lines + [IntText(n) + ". " + Str(title) + "\n   " + Str(url)];
    if Truthy(desc) {
      out := out + ["   " + Str(desc)];
    }
    EntrySpelled(lines, n, item, out);
  }

  /** `f"Error: {type(e).__name__}, {e}"`: the type name after "Error: ", then ", ",
      and the message at the end. */
  function ErrorText(e: Exc): (r: string)
    ensures |r| == |"Error: "| + |e.typeName| + |", "| + |e.message|
    ensures r[..7] == "Error: " && r[7..7 + |e.typeName|] == e.typeName
    ensures r[7 + |e.typeName|..9 + |e.typeName|] == ", "
    ensures r[|r| - |e.message|..] == e.message
  {
    "Error: " + e.typeName + ", " + e.message
  }

  /** The first line of a listing. */
  function Header(query: string): string {
    "Results for: " + query + "\n"
  }

  /** The lines for the n-th result: number, title and url, then the description when
      it is non-empty; a missing field counts as "". */
  function Entry(n: nat, item: seq<(string, Json)>): (lines: seq<string>)
    ensures 1 <= |lines| <= 2
    ensures |lines| == 2 <==> Truthy(Get(item, "description", JStr("")))
  {
    var title := Get(item, "title", JStr(""));
    var url := Get(item, "url", JStr(""));
    var desc := Get(item, "description", JStr(""));
    [IntText(n) + ". " + Str(title) + "\n   " + Str(url)] +
    (if Truthy(desc) then ["   " + Str(desc)] else [])
  }

  /** The lines `f` gives for each element of `items`, numbered from `n`. */
  function Numbered<T>(f: (nat, T) -> seq<string>, items: seq<T>, n: nat): seq<string> {
    if |items| == 0 then [] else f(n, items[0]) + Numbered(f, items[1..], n + 1)
  }

  /** When each element gives one or two lines, the count of lines is between the
      count of elements and twice that. */
  lemma {:induction false} NumberedLength<T>(f: (nat, T) -> seq<string>, items: seq<T>, n: nat)
    requires forall k: nat, x: T :: 1 <= |f(k, x)| <= 2
    ensures |items| <= |Numbered(f, items, n)| <= 2 * |items|
  {
    if |items| > 0 {
      NumberedLength(f, items[1..], n + 1);
    }
  }

  /** The lines for `items`, numbered from `n`. */
  function EntryLines(items: seq<seq<(string, Json)>>, n: nat): (lines: seq<string>)
    ensures |items| <= |lines| <= 2 * |items|
  {
    NumberedLength(Entry, items, n);
    Numbered(Entry, items, n)
  }

  /** What `queryStringify` makes of the outcome of `query`: a failed query becomes
      text; only the loop over truthy results can raise, with the TypeError of a value
      that cannot be iterated or the AttributeError of a `.get` on a non-dict. */
  function Stringify(query: string, results: Outcome<Json>): (r: Outcome<string>)
    ensures results.Raised? ==> r == Returned(ErrorText(results.exc))
    ensures r.Raised? ==> results.Returned? && Truthy(results.value)
    ensures r.Raised? ==> r.exc.typeName == "TypeError" || r.exc.typeName == "AttributeError"
  {
    match results
    case Raised(e) => Returned(ErrorText(e))
    case Returned(value) =>
      if !Truthy(value) then Returned("No results for: " + query)
      else
        match Iterate(value)
        case Raised(e) => Raised(e)
        case Returned(items) => Listing(query, items)
  }

  /** The listing of the elements a loop over the results visits; `.get` on one that
      is not a dict raises. */
  function Listing(query: string, items: seq<Json>): (r: Outcome<string>)
    ensures r.Raised? <==> exists j | 0 <= j < |items| :: !items[j].JObj?
    ensures r.Raised? ==> r.exc.typeName == "AttributeError"
  {
    var k := FirstNonObject(items);
    if k < |items| then Raised(NoGet(items[k]))
    else Returned(Join("\n", [Header(query)] + EntryLines(Objects(items), 1)))
  }

  /** The listing of `a + b` is that of `a` followed by that of `b`, whose numbering
      continues after `a`. */
  lemma EntryLinesAppend(a: seq<seq<(string, Json)>>, b: seq<seq<(string, Json)>>, n: nat)
    ensures EntryLines(a + b, n) == EntryLines(a, n) + EntryLines(b, n + |a|)
  {
    NumberedAppend(Entry, a, b, n);
  }

  /** Numbering runs on across a concatenation, whatever the lines of one element are. */
  lemma {:induction false} NumberedAppend<T>(f: (nat, T) -> seq<string>, a: seq<T>, b: seq<T>, n: nat)
    ensures Numbered(f, a + b, n) == Numbered(f, a, n) + Numbered(f, b, n + |a|)
  {
    if |a| == 0 {
      assert a + b == b;
    } else {
      assert (a + b)[0] == a[0] && (a + b)[1..] == a[1..] + b;
      NumberedAppend(f, a[1..], b, n + 1);
      Associative(f(n, a[0]), Numbered(f, a[1..], n + 1), Numbered(f, b, n + |a|));
    }
  }

  /** The listing ends at the first element that is not a dict, or after the last. */
  lemma ListingStops(query: string, items: seq<Json>, i: nat)
    requires i <= |items| && forall j | 0 <= j < i :: items[j].JObj?
    requires i < |items| ==> !items[i].JObj?
    ensures i < |items| ==> Listing(query, items) == Raised(NoGet(items[i]))
    ensures i == |items| ==>
            Listing(query, items) == Returned(Join("\n", [Header(query)] + EntryLines(Objects(items[..i]), 1)))
  {
    assert FirstNonObject(items) == i;
    assert items[..|items|] == items;
  }

  /** `x + y + z` may be regrouped. */
  lemma Associative<T>(x: seq<T>, y: seq<T>, z: seq<T>)
    ensures x + y + z == x + (y + z)
  {
  }

  /** A list of one result gives that result's entry. */
  lemma EntryLinesOne(item: seq<(string, Json)>, n: nat)
    ensures EntryLines([item], n) == Entry(n, item)
  {
    assert [item][1..] == [];
    assert Numbered(Entry, [item], n) == Entry(n, item) + Numbered(Entry, [], n + 1);
  }

  /** The lines one turn of the loop appends are the entry of its result. */
  lemma EntrySpelled(before: seq<string>, n: nat, item: seq<(string, Json)>, after: seq<string>)
    requires var desc := Get(item, "description", JStr(""));
             var first := IntText(n) + ". " + Str(Get(item, "title", JStr(""))) + "\n   " + Str(Get(item, "url", JStr("")));
             after == before + [first] + (if Truthy(desc) then ["   " + Str(desc)] else [])
    ensures after == before + Entry(n, item)
  {
    var desc := Get(item, "description", JStr(""));
    var first := IntText(n) + ". " + Str(Get(item, "title", JStr(""))) + "\n   " + Str(Get(item, "url", JStr("")));
    Associative(before, [first], if Truthy(desc) then ["   " + Str(desc)] else []);
  }

  /** One more turn of the listing loop adds the entry of the next result. */
  lemma ListingGrows(header: string, lines: seq<string>, shown: seq<seq<(string, Json)>>, item: seq<(string, Json)>)
    requires lines == [header] + EntryLines(shown, 1)
    ensures lines + Entry(|shown| + 1, item) == [header] + EntryLines(shown + [item], 1)
  {
    EntryLinesAppend(shown, [item], 1);
    EntryLinesOne(item, 1 + |shown|);
    Associative([header], EntryLines(shown, 1), Entry(1 + |shown|, item));
  }

  /** One entry per result, in order: the k-th result (from 0) is numbered n + k and
      its lines come after those of every earlier result. */
  lemma EntriesInOrder(items: seq<seq<(string, Json)>>, n: nat, k: nat)
    requires k < |items|
    ensures EntryLines(items, n) ==
            EntryLines(items[..k], n) + Entry(n + k, items[k]) + EntryLines(items[k + 1..], n + k + 1)
  {
    assert items == items[..k] + ([items[k]] + items[k + 1..]);
    EntryLinesAppend(items[..k], [items[k]] + items[k + 1..], n);
    EntryLinesAppend([items[k]], items[k + 1..], n + k);
    EntryLinesOne(items[k], n + k);
    Associative(EntryLines(items[..k], n), Entry(n + k, items[k]), EntryLines(items[k + 1..], n + k + 1));
  }

  /** A missing title and url print as empty, and a missing or empty description adds
      no line. */
  lemma EntryMissingFields(n: nat, item: seq<(string, Json)>)
    requires !HasKey(item, "title") && !HasKey(item, "url")
    requires !HasKey(item, "description") || Get(item, "description", JNull) == JStr("")
    ensures Entry(n, item) == [IntText(n) + ". " + "\n   "]
  {
    if HasKey(item, "description") {
      assert Get(item, "description", JStr("")) == Get(item, "description", JNull);
    }
    assert IntText(n) + ". " + "" + "\n   " + "" == IntText(n) + ". " + "\n   ";
  }

  /** Empty results (an empty list, or anything else Python finds false) give exactly
      "No results for: <query>". */
  lemma NoResultsText(query: string, value: Json)
    requires !Truthy(value)
    ensures Stringify(query, Returned(value)) == Returned("No results for: " + query)
  {
  }

  /** A non-empty list of dicts gives the header line, an empty line, and the entries
      numbered from 1. */
  lemma ListingText(query: string, items: seq<Json>)
    requires |items| > 0 && forall i | 0 <= i < |items| :: items[i].JObj?
    ensures Stringify(query, Returned(JArr(items))) ==
            Returned("Results for: " + query + "\n" + "\n" + Join("\n", EntryLines(Objects(items), 1)))
  {
    assert FirstNonObject(items) == |items|;
    JoinCons("\n", Header(query), EntryLines(Objects(items), 1));
  }

  /** Without an API key nothing is sent, and the text is the missing-key error. */
  lemma MissingKeyText(t: SearchTool, query: string, count: Option<int>, reply: Outcome<Json>)
    requires t.apiKey == ""
    ensures t.Query(query, count, reply).sent.None?
    ensures Stringify(query, t.Query(query, count, reply).result) == Returned(ErrorText(t.MissingKey()))
  {
  }

  /** With an empty count or 0 the clamp starts from `max_results`. */
  lemma TopKFallsBackToMaxResults(t: SearchTool, count: Option<int>)
    requires count.None? || count == Some(0)
    ensures t.TopK(count) == t.TopK(Some(t.maxResults))
  {
  }

  /** The Baidu body carries `top_k(count)`, which lies in [1, 50]. */
  lemma BaiduBody(t: SearchTool, query: string, count: Option<int>)
    requires t.Valid() && t.provider == BaiduProvider
    ensures t.Body(query, count) == Baidu.Body(query, t.TopK(count))
    ensures 1 <= t.TopK(count) <= 50
  {
  }

  /** The Brave parameters are exactly q and `top_k(count)`, which lies in [1, 10]. */
  lemma BraveBody(t: SearchTool, query: string, count: Option<int>)
    requires t.Valid() && t.provider == BraveProvider
    ensures t.Body(query, count) == JObj([("q", JStr(query)), ("count", JNum(t.TopK(count)))])
    ensures 1 <= t.TopK(count) <= 10
  {
  }
}
