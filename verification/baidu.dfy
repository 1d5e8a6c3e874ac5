/** The Baidu (Qianfan "ai_search") provider: its defaults, the headers and JSON body
    it sends, and how it turns the decoded reply into a list of results. */
module Baidu {
  import opened PyValue

  const Endpoint := "https://qianfan.baidubce.com/v2/ai_search/web_search"
  const EnvName := "BAIDU_API_KEY"
  const LimitResults := 50

  /** `headers`: bearer authorization and JSON content negotiation. */
  function Headers(apiKey: string): (h: map<string, string>)
    ensures h.Keys == {"Authorization", "Content-Type", "Accept"}
    ensures h["Authorization"] == "Bearer " + apiKey
    ensures h["Content-Type"] == "application/json" && h["Accept"] == "application/json"
  {
    map["Authorization" := "Bearer " + apiKey,
        "Content-Type" := "application/json",
        "Accept" := "application/json"]
  }

  /** `body` for an already clamped `topK`. */
  function Body(query: string, topK: int): (b: Json)
    ensures b.JObj?
    ensures Keys(b.fields) == ["messages", "edition", "search_source", "resource_type_filter"]
  {
    JObj([
      ("messages", JArr([JObj([("content", JStr(query)), ("role", JStr("user"))])])),
      ("edition", JStr("standard")),
      ("search_source", JStr("baidu_search_v2")),
      ("resource_type_filter", JArr([JObj([("type", JStr("web")), ("top_k", JNum(topK))])]))])
  }

  /** The body always asks the standard edition of baidu_search_v2. */
  lemma BodySource(query: string, topK: int)
    ensures var f := Body(query, topK).fields;
            && Get(f, "edition", JNull) == JStr("standard")
            && Get(f, "search_source", JNull) == JStr("baidu_search_v2")
  {
    var f := Body(query, topK).fields;
    LookupFirst(f, "edition", 1);
    LookupFirst(f, "search_source", 2);
  }

  /** The body's one user message holds the query, and its one "web" filter holds
      `topK`. */
  lemma BodyShape(query: string, topK: int)
    ensures var f := Body(query, topK).fields;
            && Get(f, "messages", JNull) == JArr([JObj([("content", JStr(query)), ("role", JStr("user"))])])
            && Get(f, "resource_type_filter", JNull) == JArr([JObj([("type", JStr("web")), ("top_k", JNum(topK))])])
  {
    var f := Body(query, topK).fields;
    LookupFirst(f, "messages", 0);
    LookupFirst(f, "resource_type_filter", 3);
  }

  /** One reference of the reply as a result: icon, date, title and url copied, the
      description taken from "content", each "" when missing. */
  function NormalizeReference(item: seq<(string, Json)>): (r: seq<(string, Json)>)
    ensures Keys(r) == ["icon", "date", "title", "url", "description"]
  {
    [("icon", Get(item, "icon", JStr(""))),
     ("date", Get(item, "date", JStr(""))),
     ("title", Get(item, "title", JStr(""))),
     ("url", Get(item, "url", JStr(""))),
     ("description", Get(item, "content", JStr("")))]
  }

  lemma NormalizeReferenceFields(item: seq<(string, Json)>)
    ensures var r := NormalizeReference(item);
            && Get(r, "icon", JNull) == Get(item, "icon", JStr(""))
            && Get(r, "date", JNull) == Get(item, "date", JStr(""))
            && Get(r, "title", JNull) == Get(item, "title", JStr(""))
            && Get(r, "url", JNull) == Get(item, "url", JStr(""))
            && Get(r, "description", JNull) == Get(item, "content", JStr(""))
  {
    var r := NormalizeReference(item);
    var keys := ["icon", "date", "title", "url", "description"];
    assert Keys(r) == keys;
    forall i | 0 <= i < 5
      ensures Get(r, keys[i], JNull) == r[i].1
    {
      assert forall j | 0 <= j < i :: r[j].0 != keys[i];
      GetFirst(r, keys[i], JNull, i);
    }
    assert Get(r, keys[0], JNull) == r[0].1 && Get(r, keys[1], JNull) == r[1].1;
    assert Get(r, keys[2], JNull) == r[2].1 && Get(r, keys[3], JNull) == r[3].1;
    assert Get(r, keys[4], JNull) == r[4].1;
  }

  /** The message of the exception raised for an error reply: "<code>: <message>". */
  function ErrorMessage(fields: seq<(string, Json)>): (m: string)
    ensures var code, message := Str(Get(fields, "code", JNull)), Str(Get(fields, "message", JNull));
            && |m| == |code| + |": "| + |message|
            && m[..|code|] == code && m[|code|..|code| + 2] == ": "
            && m[|m| - |message|..] == message
  {
    Str(Get(fields, "code", JNull)) + ": " + Str(Get(fields, "message", JNull))
  }

  /** Each dict normalised, in order. */
  function NormalizeEach(objs: seq<seq<(string, Json)>>): (r: seq<Json>)
    ensures |r| == |objs|
    ensures forall i | 0 <= i < |objs| :: r[i] == JObj(NormalizeReference(objs[i]))
  {
    seq(|objs|, i requires 0 <= i < |objs| => JObj(NormalizeReference(objs[i])))
  }

  /** The normalised references, or the first element that is not a dict. */
  function NormalizeAll(items: seq<Json>): (r: Outcome<Json>)
    ensures var k := FirstNonObject(items);
            && (k < |items| ==> r == Raised(NoGet(items[k])))
            && (k == |items| ==> r.Returned? && r.value.JArr? && |r.value.items| == |items|)
  {
    var k := FirstNonObject(items);
    if k < |items| then Raised(NoGet(items[k]))
    else Returned(JArr(NormalizeEach(Objects(items))))
  }

  /** What `request` makes of the decoded reply: an error reply (one with a "code")
      raises, otherwise the "references" (default []) are normalised. Replies that are
      not dicts fail the way Python fails on them. */
  function Results(reply: Json): (r: Outcome<Json>)
    ensures !reply.JObj? ==> r.Raised?
    ensures reply.JObj? && HasKey(reply.fields, "code") ==> r == Raised(Exc("Exception", ErrorMessage(reply.fields)))
    ensures r.Returned? ==> reply.JObj? && !HasKey(reply.fields, "code") && r.value.JArr?
  {
    match reply
    case JObj(fields) =>
      if HasKey(fields, "code") then Raised(Exc("Exception", ErrorMessage(fields)))
      else
        (match Iterate(Get(fields, "references", JArr([])))
         case Raised(e) => Raised(e)
         case Returned(items) => NormalizeAll(items))
    case JArr(items) =>
      if JStr("code") in items then Raised(Exc("TypeError", "list indices must be integers or slices, not str"))
      else Raised(NoGet(reply))
    case JStr(s) =>
      if Contains(s, "code") then Raised(Exc("TypeError", "string indices must be integers, not 'str'"))
      else Raised(NoGet(reply))
    case _ => Raised(Exc("TypeError", "argument of type '" + TypeName(reply) + "' is not iterable"))
  }

  /** `request` after the HTTP round trip: the error-code check, then the loop that
      builds the normalised list. */
  method Request(reply: Json) returns (r: Outcome<Json>)
    ensures r == Results(reply)
  {
    if !reply.JObj? {
      // `"code" in results` on a reply that is not a dict
      if reply.JArr? && JStr("code") in reply.items {
        return Raised(Exc("TypeError", "list indices must be integers or slices, not str"));
      } else if reply.JStr? && Contains(reply.s, "code") {
        return Raised(Exc("TypeError", "string indices must be integers, not 'str'"));
      } else if reply.JArr? || reply.JStr? {
        return Raised(NoGet(reply));
      }
      return Raised(Exc("TypeError", "argument of type '" + TypeName(reply) + "' is not iterable"));
    }
    var fields := reply.fields;
    if HasKey(fields, "code") {
      return Raised(Exc("Exception", ErrorMessage(fields)));
    }
    var references := Iterate(Get(fields, "references", JArr([])));
    if references.Raised? {
      return Raised(references.exc);
    }
    r := Normalize(references.value);
  }

  /** The `for item in references` loop. */
  method Normalize(items: seq<Json>) returns (r: Outcome<Json>)
    ensures r == NormalizeAll(items)
  {
    var normalized: seq<Json> := [];
    var i := 0;
    while i < |items|
      invariant 0 <= i <= |items|
      invariant forall j | 0 <= j < i :: items[j].JObj?
      invariant normalized == NormalizeEach(Objects(items[..i]))
    {
      if !items[i].JObj? {
        assert FirstNonObject(items) == i;
        return Raised(NoGet(items[i]));
      }
      ObjectsSnoc(items, i);
      NormalizeEachSnoc(Objects(items[..i]), items[i].fields);
      normalized := normalized + [JObj(NormalizeReference(items[i].fields))];
      i := i + 1;
    }
    assert FirstNonObject(items) == |items|;
    assert items[..i] == items;
    r := Returned(JArr(normalized));
  }

  lemma NormalizeEachSnoc(objs: seq<seq<(string, Json)>>, item: seq<(string, Json)>)
    ensures NormalizeEach(objs + [item]) == NormalizeEach(objs) + [JObj(NormalizeReference(item))]
  {
  }

  /** A reply carrying a "code" is an error: it raises and yields no results. A missing
      message prints as "None". */
  lemma ErrorCodeYieldsNoResults(fields: seq<(string, Json)>)
    requires HasKey(fields, "code")
    ensures Results(JObj(fields)) == Raised(Exc("Exception", ErrorMessage(fields)))
    ensures !HasKey(fields, "message") ==> ErrorMessage(fields) == Str(Get(fields, "code", JNull)) + ": None"
  {
  }

  /** Normalisation keeps the number and the order of the references. */
  lemma {:induction false} NormalizationKeepsOrder(fields: seq<(string, Json)>, refs: seq<Json>)
    requires !HasKey(fields, "code")
    requires Get(fields, "references", JArr([])) == JArr(refs)
    requires forall i | 0 <= i < |refs| :: refs[i].JObj?
    ensures Results(JObj(fields)).Returned?
    ensures var out := Results(JObj(fields)).value;
            && out.JArr? && |out.items| == |refs|
            && forall i | 0 <= i < |refs| :: out.items[i] == JObj(NormalizeReference(refs[i].fields))
  {
    assert FirstNonObject(refs) == |refs|;
  }

  /** A reply that is not a dict always raises: `"code" in` fails on None, bools and
      numbers; a list or text holding "code" fails on the index; any other list or
      text fails on `.get`. */
  lemma NonDictReplyRaises(reply: Json)
    requires !reply.JObj?
    ensures Results(reply).Raised?
    ensures reply.JNull? || reply.JBool? || reply.JNum? ==>
            Results(reply).exc == Exc("TypeError", "argument of type '" + TypeName(reply) + "' is not iterable")
    ensures reply.JArr? && JStr("code") !in reply.items ==> Results(reply).exc == NoGet(reply)
    ensures reply.JStr? && !Contains(reply.s, "code") ==> Results(reply).exc == NoGet(reply)
    ensures (reply.JArr? && JStr("code") in reply.items) || (reply.JStr? && Contains(reply.s, "code")) ==>
            Results(reply).exc.typeName == "TypeError"
  {
  }

  /** A reply without "references" gives no results. */
  lemma NoReferencesNoResults(fields: seq<(string, Json)>)
    requires !HasKey(fields, "code") && !HasKey(fields, "references")
    ensures Results(JObj(fields)) == Returned(JArr([]))
  {
  }
}
