# nanobot heartbeat service and web-search tools, modelled in Dafny

This project models two pieces of nanobot:

- **The heartbeat service** (`nanobot/heartbeat/service.py`). It wakes the agent on a timer and reads `HEARTBEAT.md`. It asks the LLM, through a virtual `heartbeat` tool call, whether to skip or run. On "run" it hands the tasks to the `on_execute` callback, and hands a non-empty result to `on_notify`.
  - `HeartbeatService` is a class whose `start`, `stop` and run loop update `running` and `task` in place.
  - The file read, the decision, the tick and `trigger_now` are functions. The file's state, the LLM's reply and the callbacks' replies are their parameters.
  - Each call the service makes to a collaborator is recorded as an `Event`.
- **The web-search tools** (`nanobot/agent/tools/search/`), for the Baidu (Qianfan "ai_search") and Brave providers.
  - `SearchTool` is a class whose constants are set by one constructor per provider.
  - It covers the `top_k` clamp, the headers and the body, and the missing-key guard of `query`.
  - It covers what each provider's `request` makes of the decoded reply: Baidu's error-code check and reference normalisation, and Brave's `web.results` extraction.
  - It covers the text `queryStringify` builds. The HTTP round trip is a parameter: the decoded JSON, or the exception raised.

Python's behaviour is written out in the module `PyValue` (`python_values.dfy`):

- JSON values, with dicts as ordered entry lists;
- `d.get(k, default)` and `k in d`;
- truthiness;
- `str()` and `repr()`;
- what a `for` loop visits and what it raises;
- `str.join`;
- the exceptions raised when a reply does not have the expected shape.

Replies of the wrong shape are modelled rather than ruled out, because the code does not guard against them. For example, a `.get` on a list raises AttributeError.

Files:

- `python_values.dfy`: the Python value model;
- `heartbeat.dfy`: the heartbeat service;
- `baidu.dfy`, `brave.dfy`: the providers;
- `search.dfy`: the shared tool.

Three behaviours of the heartbeat code that the model follows:

- **Default of `enabled`.** `HeartbeatService.__init__` defaults `enabled` to `True` (service.py:61). The model's constructor takes `enabled` explicitly.
- **Decided action.** The `_decide` docstring (service.py:88) promises "skip" or "run". The code returns whatever the first tool call's `action` holds, and `Decide` does the same. `DecideWithinSchema` proves skip-or-run only for replies that keep to the tool schema.
- **Empty file.** An empty HEARTBEAT.md is skipped like a missing one (service.py:143), and so it is in the model.

## Model

| member | source | states |
|---|---|---|
| PyValue.Lookup | nanobot/agent/tools/search/baidu.py:76 | `key in d` finds nothing exactly when no entry has the key, and otherwise finds a value stored under the key |
| PyValue.LookupFirst | nanobot/agent/tools/search/baidu.py:76 | a lookup finds the first entry with the key |
| PyValue.Get | nanobot/agent/tools/search/baidu.py:85-89 | `d.get(k, default)` is the default when the key is absent, and otherwise a value stored under the key |
| PyValue.GetFirst | nanobot/agent/tools/search/baidu.py:85-89 | `d.get(k, default)` is the value of the first entry with the key |
| PyValue.Iterate | nanobot/agent/tools/search/baidu.py:82 | a `for` loop raises TypeError exactly on None, bool and int; it visits a list's items; it visits something exactly when the value is truthy |
| PyValue.NoGet | nanobot/agent/tools/search/brave.py:49 | `.get` on something that is not a dict raises AttributeError |
| PyValue.GetDistinct | nanobot/agent/tools/search/baidu.py:85-89 | in a dict with distinct keys, `d.get(k, default)` is the value of the entry that has the key |
| PyValue.FalsyValues | nanobot/agent/tools/search/base.py:79 | `bool(v)` is false exactly for None, False, 0, "", [] and {} |
| PyValue.StrShape | nanobot/agent/tools/search/base.py:87-89 | `str()` of text is the text; of anything else it is never empty; a list prints in brackets and a dict in braces |
| PyValue.StrRepr | nanobot/agent/tools/search/base.py:87-89 | `repr()` of text is between matching quotes, which are double exactly when the text has a single quote and no double quote |
| PyValue.PlainStrRepr | nanobot/agent/tools/search/base.py:87-89 | `repr()` of printable ASCII text without quotes or backslashes is the text between single quotes |
| PyValue.DecimalValue | nanobot/agent/tools/search/base.py:87 | the digits `str(n)` writes for a natural number spell `n` |
| PyValue.ReprShape | nanobot/agent/tools/search/base.py:87-89 | `repr()` is never empty, and puts text between matching quotes |
| PyValue.ReprIsStrExceptText | nanobot/agent/tools/search/base.py:87-89 | `repr()` and `str()` agree on everything but text |
| PyValue.StrOfShortList | nanobot/agent/tools/search/base.py:87-89 | `str([])` is "[]", and `str([x])` is `repr(x)` in brackets |
| PyValue.JoinLength | nanobot/agent/tools/search/base.py:90 | the join is as long as the parts plus one separator between each two of them |
| PyValue.JoinCons | nanobot/agent/tools/search/base.py:90 | joining a head with a non-empty tail puts one separator right after the head |
| PyValue.JoinAppend | nanobot/agent/tools/search/base.py:90 | joining two non-empty lists puts one separator between their joins |
| PyValue.FirstNonObject | nanobot/agent/tools/search/baidu.py:82-89 | the loop's `.get` first fails at the first element that is not a dict; every earlier element is a dict |
| Heartbeat.ReadHeartbeatFile | nanobot/heartbeat/service.py:77-83 | the text exactly when the file exists and is readable, otherwise None |
| Heartbeat.HasContent | nanobot/heartbeat/service.py:143 | `not content` fails exactly when the read gives text and that text is not empty |
| Heartbeat.DecisionRequest | nanobot/heartbeat/service.py:90-100 | the chat call sends the system prompt, then the review prompt followed by the file content, with the heartbeat tool and the configured model |
| Heartbeat.Decide | nanobot/heartbeat/service.py:102-103 | a reply without tool calls decides ("skip", "") |
| Heartbeat.DecideReadsFirstCallOnly | nanobot/heartbeat/service.py:105-106 | only the first tool call decides: the reply's text and any later tool calls never change the decision |
| Heartbeat.DecideDefaults | nanobot/heartbeat/service.py:106 | a first call without `action` decides "skip"; one without `tasks` gives "" |
| Heartbeat.DecideWithinSchema | nanobot/heartbeat/service.py:102-106 | when the LLM keeps to the tool schema, the action is "skip" or "run" and the tasks are text |
| Heartbeat.StartNext | nanobot/heartbeat/service.py:108-118 | disabled or already running: nothing changes; otherwise running, with the new task handle |
| Heartbeat.StopNext | nanobot/heartbeat/service.py:121-126 | after stop the service is not running and holds no task |
| Heartbeat.StartAndStopKeepConsistent | nanobot/heartbeat/service.py:108-126 | start and stop keep "running exactly when a task is held" |
| Heartbeat.StartIsIdempotent | nanobot/heartbeat/service.py:113-115 | a second start keeps the first task, so no second loop is created |
| Heartbeat.StopIsIdempotent | nanobot/heartbeat/service.py:121-126 | stopping twice equals stopping once |
| Heartbeat.RoundsBeforeStop | nanobot/heartbeat/service.py:130-134 | the number of rounds whose sleep sees no stop; the round after them sees a stop |
| Heartbeat.HeartbeatService.constructor | nanobot/heartbeat/service.py:53-71 | the settings are stored as given; the service is not running and has no task |
| Heartbeat.HeartbeatService.Start | nanobot/heartbeat/service.py:108-119 | the new state is `StartNext` of the old one; a start that runs records exactly one new handle; nothing is cancelled |
| Heartbeat.HeartbeatService.Stop | nanobot/heartbeat/service.py:121-126 | the new state is `StopNext`; the held task, if any, is the one cancelled; nothing is created |
| Heartbeat.HeartbeatService.Tick | nanobot/heartbeat/service.py:140-163 | no content means no call at all; otherwise the chat call comes first. `on_execute` is called only on exactly "run", only when registered, and with exactly the decided tasks. `on_notify` is called once with the result exactly when the result is non-empty and a notifier is registered. A failing chat or execute call ends the tick without raising |
| Heartbeat.HeartbeatService.TriggerNow | nanobot/heartbeat/service.py:165-173 | None when there is no content, the action is not "run" or no `on_execute` is registered; otherwise the execute result unchanged; never notifies; failures propagate |
| Heartbeat.HeartbeatService.RunLoop | nanobot/heartbeat/service.py:128-138 | each round ticks exactly when the service is still running after its sleep; a stop ends the loop; the ticks are those of the rounds before the stop; a stop landing in the loop cancels the held task once, which is appended to the log of cancelled tasks, and otherwise that log is unchanged |
| Heartbeat.TriggerAgreesWithTick | nanobot/heartbeat/service.py:140-173 | `trigger_now` makes the same chat and execute calls as a tick; the tick can only add the notify call after them |
| Baidu.Headers | nanobot/agent/tools/search/baidu.py:29-35 | exactly Authorization "Bearer " + key, and JSON Content-Type and Accept |
| Baidu.Body | nanobot/agent/tools/search/baidu.py:48-54 | a dict with exactly the keys messages, edition, search_source and resource_type_filter |
| Baidu.BodySource | nanobot/agent/tools/search/baidu.py:51-52 | edition "standard" and search_source "baidu_search_v2" |
| Baidu.BodyShape | nanobot/agent/tools/search/baidu.py:49-54 | one user message holding the query, and one "web" filter holding `top_k` |
| Baidu.ErrorMessage | nanobot/agent/tools/search/baidu.py:78 | `str()` of the code, then ": ", then `str()` of `.get("message")`; `ErrorCodeYieldsNoResults` shows a missing message printing as "None" |
| Baidu.Results | nanobot/agent/tools/search/baidu.py:75-92 | a reply that is not a dict raises; a reply with a "code" raises the Exception of `ErrorMessage`; a result returned is a list, from a dict without "code". `ErrorCodeYieldsNoResults`, `NonDictReplyRaises`, `NoReferencesNoResults` and `NormalizationKeepsOrder` state the rest |
| Baidu.NormalizeReference | nanobot/agent/tools/search/baidu.py:83-91 | a result has exactly the keys icon, date, title, url and description, in that order |
| Baidu.NormalizeReferenceFields | nanobot/agent/tools/search/baidu.py:84-90 | icon, date, title and url are copied; description comes from "content"; a missing field becomes "" |
| Baidu.NormalizeAll | nanobot/agent/tools/search/baidu.py:80-92 | raises at the first reference that is not a dict; otherwise a list as long as the references |
| Baidu.Request | nanobot/agent/tools/search/baidu.py:75-92 | the code check, then the normalisation, give `Results` of the decoded reply |
| Baidu.Normalize | nanobot/agent/tools/search/baidu.py:81-92 | the appending loop builds `NormalizeAll` of the references |
| Baidu.ErrorCodeYieldsNoResults | nanobot/agent/tools/search/baidu.py:76-78 | a reply with a "code" raises "<code>: <message>" and yields no results; without a "message" the text ends in ": None" |
| Baidu.NormalizationKeepsOrder | nanobot/agent/tools/search/baidu.py:80-92 | the i-th result is the normalisation of the i-th reference, for every i; the lengths are equal |
| Baidu.NoReferencesNoResults | nanobot/agent/tools/search/baidu.py:80 | a reply without "references" gives [] |
| Baidu.NonDictReplyRaises | nanobot/agent/tools/search/baidu.py:75-80 | a reply that is not a dict always raises. `"code" in` gives a TypeError on None, bools and numbers. A list or text holding "code" gives the TypeError of the index. Any other list or text gives the AttributeError of `.get` |
| Baidu.NormalizeEach | nanobot/agent/tools/search/baidu.py:82-91 | one result per dict, in order, each the dict's normalisation |
| Brave.Headers | nanobot/agent/tools/search/brave.py:25-27 | exactly Accept "application/json" and X-Subscription-Token = key |
| Brave.Body | nanobot/agent/tools/search/brave.py:29-31 | a dict with exactly the keys q and count |
| Brave.BodyFields | nanobot/agent/tools/search/brave.py:31 | q is the query and count is the given `top_k` |
| Brave.ResultsUnchanged | nanobot/agent/tools/search/brave.py:49 | `web.results` is returned unchanged, whatever it holds |
| Brave.Results | nanobot/agent/tools/search/brave.py:49 | raises exactly when the reply is not a dict or its "web" (default {}) is not a dict, and then with AttributeError |
| Brave.UnexpectedPayloadRaises | nanobot/agent/tools/search/brave.py:49 | a reply that is not a dict, or whose "web" is present and not a dict, raises the AttributeError of `.get` on it |
| Brave.NullResultsStayNull | nanobot/agent/tools/search/brave.py:49 | a null "results" is returned as None, not as [] |
| Brave.MissingResultsGiveEmptyList | nanobot/agent/tools/search/brave.py:49 | a reply without "web", or whose "web" has no "results", gives [] |
| Search.OrElse | nanobot/agent/tools/search/baidu.py:24-27 | `s or default`: the configured value when it is non-empty, the default otherwise |
| Search.ResolveApiKey | nanobot/agent/tools/search/base.py:33 | the configured key when it is non-empty, otherwise the environment's value, or "" when that is unset |
| Search.ApiKeyMissingIff | nanobot/agent/tools/search/base.py:33 | the key is empty exactly when neither the configuration nor the environment gives a non-empty one |
| Search.SearchTool.ForBaidu | nanobot/agent/tools/search/baidu.py:18-27 | env name BAIDU_API_KEY, limit 50, name and max_results from the configuration, key with environment fallback, url defaulting to the Qianfan endpoint |
| Search.SearchTool.ForBrave | nanobot/agent/tools/search/brave.py:16-23 | env name BRAVE_API_KEY, the class limit of 10, key with environment fallback, url defaulting to the Brave endpoint |
| Search.SearchTool.TopK | nanobot/agent/tools/search/base.py:57-64 | at most the limit and, when the limit is at least 1, at least 1; a count within [1, limit] is kept; a negative count gives 1 |
| Search.SearchTool.Call | nanobot/agent/tools/search/baidu.py:67-72 | the request goes to `url_base` with the provider's headers and body and a 10-second timeout; it is a POST for Baidu and a GET for Brave |
| Search.SearchTool.MissingKey | nanobot/agent/tools/search/base.py:102-103 | the missing-key failure is a plain Exception |
| Search.SearchTool.Query | nanobot/agent/tools/search/base.py:92-108 | a request is sent exactly when the key is non-empty; without a key it raises the missing-key error; otherwise the HTTP failure propagates, or the provider's results of the reply are returned |
| Search.SearchTool.QueryStringify | nanobot/agent/tools/search/base.py:66-90 | the text of the query's outcome is `Stringify` of it |
| Search.Stringify | nanobot/agent/tools/search/base.py:74-90 | a failed query becomes its error text; only the loop over truthy results can raise, with a TypeError or an AttributeError |
| Search.ErrorText | nanobot/agent/tools/search/base.py:77 | "Error: ", then the exception's type name, then ", ", then its message at the end |
| Search.FormatListing | nanobot/agent/tools/search/base.py:82-90 | the appending loop builds `Listing` of the results |
| Search.Listing | nanobot/agent/tools/search/base.py:82-90 | raises exactly when some visited element is not a dict, and then with AttributeError. `ListingText` and `EntriesInOrder` give its text |
| Search.AppendEntry | nanobot/agent/tools/search/base.py:84-89 | one turn of the loop appends exactly the entry of its result |
| Search.Entry | nanobot/agent/tools/search/base.py:84-89 | an entry is one or two lines, two exactly when the description is truthy |
| Search.EntryLines | nanobot/agent/tools/search/base.py:83-89 | each result adds one or two lines |
| Search.EntryLinesAppend | nanobot/agent/tools/search/base.py:83-89 | the lines of `a + b` are those of `a` followed by those of `b`, numbered on from `a` |
| Search.NumberedAppend | nanobot/agent/tools/search/base.py:83 | `enumerate`'s numbering runs on across a concatenation |
| Search.EntriesInOrder | nanobot/agent/tools/search/base.py:83-89 | the k-th result is numbered n + k, and its entry comes after the entries of every earlier result and before those of every later one |
| Search.EntryMissingFields | nanobot/agent/tools/search/base.py:84-89 | a missing title and url print as "", and a missing or empty description adds no line |
| Search.NoResultsText | nanobot/agent/tools/search/base.py:79-80 | results Python finds false give exactly "No results for: " + query |
| Search.ListingText | nanobot/agent/tools/search/base.py:82-90 | a non-empty list of dicts gives "Results for: " + query + "\n", an empty line, then the entries numbered from 1 |
| Search.MissingKeyText | nanobot/agent/tools/search/base.py:74-77 | without a key nothing is sent, and the text is "Error: Exception, " followed by the missing-key message |
| Search.TopKFallsBackToMaxResults | nanobot/agent/tools/search/base.py:64 | `top_k(None)` and `top_k(0)` both clamp `max_results` |
| Search.BaiduBody | nanobot/agent/tools/search/baidu.py:48-53 | the Baidu body carries `top_k(count)`, which lies in [1, 50] |
| Search.BraveBody | nanobot/agent/tools/search/brave.py:29-31 | the Brave parameters are exactly q and `top_k(count)`, which lies in [1, 10] |

## Left out

- **Network, file system and environment.** The HTTP client, `raise_for_status`, `response.json()`, reading `HEARTBEAT.md` and `os.environ` are not modelled. Their outcomes are parameters: the decoded reply or the exception raised, the state of the file, and the environment as a map.
- **LLM and callbacks.** The provider's `chat` and the `on_execute`/`on_notify` callbacks are parameters. A registered callback is a boolean, and its reply to each call is a parameter. A failure of `on_notify` is swallowed by the tick, like every other failure inside it. The response class (`has_tool_calls`, `tool_calls`) is not part of this model. A reply counts as having tool calls when its list of them is non-empty.
- **Tool-call arguments.** Arguments are taken as a mapping, which is what `args.get` needs. Arguments arriving as raw JSON text are not modelled.
- **Scheduling and cancellation.** asyncio scheduling, `asyncio.sleep`, `create_task` and `CancelledError` are not modelled. `Heartbeat.HeartbeatService.RunLoop` runs over a finite schedule of rounds. Each round says whether `stop` is called during its sleep, and a stop ends the loop the way the cancellation does. The task handle is an opaque value given to `Start`.
- Heartbeat.HeartbeatService.RunLoop: a `stop` can also land while a tick awaits `chat`, `on_execute` or `on_notify`. The tick is then cancelled part-way, for example with execute done and notify never sent. `CancelledError` is not an `Exception`, so the tick's handler (service.py:162) does not catch it, and the loop ends (service.py:135-136). Only stops during the sleep are modelled, so a tick cut short this way is not.
- **Interleavings.** Interleavings of `trigger_now` with the timer loop are not modelled.
- **Logging.** Logging calls are not modelled.
- **The heartbeat file's path.** `heartbeat_file` (the workspace joined with "HEARTBEAT.md") is not modelled; only the state of that file is.
- **Default arguments.** Dafny has no default arguments. `interval_s = 1800` and `enabled = True` are passed explicitly to the constructor.
- **Keyword arguments.** The `**kwargs` of `query` and `queryStringify` are not modelled. `query` passes them on to `body`. Baidu's `body` accepts and ignores them, but Brave's `body` (brave.py:29) takes none. So a Brave query with keyword arguments raises TypeError at base.py:106, and `queryStringify` then returns "Error: TypeError, …". That path is not modelled.
- Brave.Results: the `request` docstring (brave.py:38-40) promises an empty list on unexpected payloads. That default holds only for missing keys. A reply that is not a dict, or whose "web" is not a dict, raises AttributeError (`Brave.UnexpectedPayloadRaises`). A "results" that is null comes back as None (`Brave.NullResultsStayNull`). The model follows the code.
- **Repeated keys.** A dict is modelled as its entry list, and a lookup takes the first entry with the key. `json.loads` keeps the last of repeated keys, so the decoded dicts have distinct keys (`PyValue.DistinctKeys`), and there first and last coincide (`PyValue.GetDistinct`). For an entry list with a repeated key, which no decoded reply is, the model's lookup differs from Python's.
- **JSON numbers.** Floats are not modelled: JSON numbers are integers. `str()` and `repr()` of nested values are written out for `None`, bools, ints, strings, lists and dicts.
- PyValue.PlainStrRepr: `repr` of characters outside ASCII that Python treats as non-printable (the C1 controls, U+00A0, U+00AD, U+2028 and others) is not modelled: the model keeps them as they are, where CPython escapes them. So the lemma is stated for printable ASCII only.
- **The timeout.** `10.0` seconds is the integer 10.
- **Exception messages.** The messages of the TypeErrors Python raises on replies that are not dicts are those of CPython 3.11 and later. Older versions word them differently.
- **Baidu's name.** `BaiduSearchTool.__init__` sets `name = "baidu"` before calling the base initialiser. The base initialiser overwrites it with `config.provider`, and `Search.SearchTool.ForBaidu` models that outcome.
- **Base class defaults.** The base class defaults `name`, `envName`, `url_base`, `api_key` and `max_results` are not modelled. Both subclasses override them, so they are never observed.
- **The abstract base.** `headers` returning `{}` and `body` raising NotImplementedError belong to the abstract base, which is never used directly, and are not modelled.
- **The heartbeat test.** `tests/test_heartbeat_service.py` imports a `HEARTBEAT_OK_TOKEN` and passes an `on_heartbeat` argument. Neither exists in the service. Of that test, only its idempotent-start check matches the code, and `Heartbeat.StartIsIdempotent` states it.
- **Other components.** The memory-consolidation engine (`nanobot.agent.memory`), the email channel (`nanobot.channels.email`) and the context builder (`nanobot.agent.context`) are not part of this model, which covers only the heartbeat service and the search tools.
