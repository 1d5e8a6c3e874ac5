/** The Brave web search provider: its defaults, the headers and query parameters it
    sends, and the `web.results` list it takes from the decoded reply. */
module Brave {
  import opened PyValue

  const Endpoint := "https://api.search.brave.com/res/v1/web/search"
  const EnvName := "BRAVE_API_KEY"

  /** `headers`: JSON accept and the subscription token. */
  function Headers(apiKey: string): (h: map<string, string>)
    ensures h.Keys == {"Accept", "X-Subscription-Token"}
    ensures h["Accept"] == "application/json" && h["X-Subscription-Token"] == apiKey
  {
    map["Accept" := "application/json", "X-Subscription-Token" := apiKey]
  }

  /** `body` for an already clamped `topK`: the query parameters q and count. */
  function Body(query: string, topK: int): (b: Json)
    ensures b.JObj? && Keys(b.fields) == ["q", "count"]
  {
    JObj([("q", JStr(query)), ("count", JNum(topK))])
  }

  /** The parameters carry the query and the count as given. */
  lemma BodyFields(query: string, topK: int)
    ensures Get(Body(query, topK).fields, "q", JNull) == JStr(query)
    ensures Get(Body(query, topK).fields, "count", JNull) == JNum(topK)
  {
    LookupFirst(Body(query, topK).fields, "q", 0);
    LookupFirst(Body(query, topK).fields, "count", 1);
  }

  /** `r.json().get("web", {}).get("results", [])`; a `.get` on something that is not a
      dict raises. */
  function Results(reply: Json): (r: Outcome<Json>)
    ensures r.Raised? <==> !reply.JObj? || !Get(reply.fields, "web", JObj([])).JObj?
    ensures r.Raised? ==> r.exc.typeName == "AttributeError"
  {
    match reply
    case JObj(fields) =>
      var web := Get(fields, "web", JObj([]));
      (match web
       case JObj(webFields) => Returned(Get(webFields, "results", JArr([])))
       case _ => Raised(NoGet(web)))
    case _ => Raised(NoGet(reply))
  }

  /** `web.results` is returned as it is, whatever it holds. */
  lemma ResultsUnchanged(fields: seq<(string, Json)>, webFields: seq<(string, Json)>, results: Json)
    requires Lookup(fields, "web") == Some(JObj(webFields))
    requires Lookup(webFields, "results") == Some(results)
    ensures Results(JObj(fields)) == Returned(results)
  {
  }

  /** A reply without "web", or whose "web" has no "results", gives []. */
  lemma MissingResultsGiveEmptyList(fields: seq<(string, Json)>)
    requires !HasKey(fields, "web") ||
             (Get(fields, "web", JNull).JObj? && !HasKey(Get(fields, "web", JNull).fields, "results"))
    ensures Results(JObj(fields)) == Returned(JArr([]))
  {
  }

  /** The empty-list default covers only missing keys: a reply that is not a dict, or
      whose "web" is not a dict, raises AttributeError. */
  lemma UnexpectedPayloadRaises(reply: Json)
    requires !reply.JObj? || (HasKey(reply.fields, "web") && !Get(reply.fields, "web", JNull).JObj?)
    ensures Results(reply) == Raised(NoGet(if reply.JObj? then Get(reply.fields, "web", JNull) else reply))
  {
  }

  /** A "results" that is null comes back as None, not as []. */
  lemma NullResultsStayNull()
    ensures Results(JObj([("web", JObj([("results", JNull)]))])) == Returned(JNull)
  {
    LookupFirst([("web", JObj([("results", JNull)]))], "web", 0);
    LookupFirst([("results", JNull)], "results", 0);
  }
}
