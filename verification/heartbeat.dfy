/** The heartbeat service: a periodic wake-up that reads HEARTBEAT.md, asks the LLM
    through a virtual `heartbeat` tool call whether there are active tasks, and hands
    the tasks to the execute callback (and its result to the notify callback).

    The LLM, the callbacks and the file system are outside the model: what each of them
    answers is a parameter, and what the service asks of them is recorded as an Event. */
module Heartbeat {
  import opened PyValue

  /** The handle `asyncio.create_task` gives for the background loop. */
  datatype TaskHandle = TaskHandle(id: nat)

  /** The state of HEARTBEAT.md in the workspace when it is read. */
  datatype HeartbeatFile = Missing | Unreadable | Present(text: string)

  datatype ChatMessage = ChatMessage(role: string, content: string)

  /** One call of the provider's `chat`. */
  datatype ChatRequest = ChatRequest(messages: seq<ChatMessage>, tools: Json, model: string)

  datatype ToolCall = ToolCall(name: string, arguments: seq<(string, Json)>)

  /** The provider's reply; it has tool calls when its list of them is non-empty. */
  datatype LlmResponse = LlmResponse(content: Option<string>, toolCalls: seq<ToolCall>)

  /** The `(action, tasks)` pair of phase 1. */
  datatype Decision = Decision(action: Json, tasks: Json)

  /** A call the service makes to a collaborator. */
  datatype Event =
    | Asked(request: ChatRequest)
    | Executed(tasks: Json)
    | Notified(result: string)

  /** What `trigger_now` did and what it returned or raised. */
  datatype Trigger = Trigger(events: seq<Event>, result: Outcome<Option<string>>)

  /** The lifecycle fields `_running` and `_task`. */
  datatype Lifecycle = Lifecycle(running: bool, task: Option<TaskHandle>)

  /** The tool schema offered to the LLM: one function `heartbeat` with a required
      `action` in {skip, run} and an optional free-text `tasks`. */
  const HeartbeatTool: Json := JArr([JObj([
    ("type", JStr("function")),
    ("function", JObj([
      ("name", JStr("heartbeat")),
      ("description", JStr("Report heartbeat decision after reviewing tasks.")),
      ("parameters", JObj([
        ("type", JStr("object")),
        ("properties", JObj([
          ("action", JObj([
            ("type", JStr("string")),
            ("enum", JArr([JStr("skip"), JStr("run")])),
            ("description", JStr("skip = nothing to do, run = has active tasks"))])),
          ("tasks", JObj([
            ("type", JStr("string")),
            ("description", JStr("Natural-language summary of active tasks (required for run)"))]))])),
        ("required", JArr([JStr("action")]))]))]))])])

  const SystemPrompt := "You are a heartbeat agent. Call the heartbeat tool to report your decision."
  const ReviewPrompt := "Review the following HEARTBEAT.md and decide whether there are active tasks.\n\n"

  /** `_read_heartbeat_file`: the text when the file exists and can be read, else None. */
  function ReadHeartbeatFile(file: HeartbeatFile): (content: Option<string>)
    ensures content.Some? <==> file.Present?
    ensures file.Present? ==> content == Some(file.text)
  {
    match file
    case Present(text) => Some(text)
    case _ => None
  }

  /** `not content` fails: the file was read and is not empty. */
  predicate HasContent(file: HeartbeatFile)
    ensures HasContent(file) <==> ReadHeartbeatFile(file).Some? && ReadHeartbeatFile(file).value != ""
  {
    file.Present? && file.text != ""
  }

  /** The chat call phase 1 makes: the system prompt, the review prompt followed by the
      file's text, the heartbeat tool, and the configured model. */
  function DecisionRequest(model: string, content: string): (r: ChatRequest)
    ensures |r.messages| == 2
    ensures r.messages[0] == ChatMessage("system", SystemPrompt)
    ensures r.messages[1].role == "user"
    ensures r.messages[1].content == ReviewPrompt + content
    ensures r.tools == HeartbeatTool && r.model == model
  {
    ChatRequest([ChatMessage("system", SystemPrompt), ChatMessage("user", ReviewPrompt + content)],
                HeartbeatTool, model)
  }

  /** `_decide` after the chat call: no tool call means skip; otherwise the first tool
      call's `action` (default "skip") and `tasks` (default ""). */
  function Decide(response: LlmResponse): (d: Decision)
    ensures |response.toolCalls| == 0 ==> d == Decision(JStr("skip"), JStr(""))
  {
    if |response.toolCalls| == 0 then Decision(JStr("skip"), JStr(""))
    else
      var args := response.toolCalls[0].arguments;
      Decision(Get(args, "action", JStr("skip")), Get(args, "tasks", JStr("")))
  }

  /** Arguments that follow the heartbeat tool's schema. */
  predicate FollowsSchema(args: seq<(string, Json)>) {
    && Lookup(args, "action") in {Some(JStr("skip")), Some(JStr("run"))}
    && (HasKey(args, "tasks") ==> Get(args, "tasks", JNull).JStr?)
  }

  /** Only the first tool call is read: the others never change the decision. */
  lemma DecideReadsFirstCallOnly(first: ToolCall, content1: Option<string>, content2: Option<string>,
                                 rest1: seq<ToolCall>, rest2: seq<ToolCall>)
    ensures Decide(LlmResponse(content1, [first] + rest1)) == Decide(LlmResponse(content2, [first] + rest2))
  {
  }

  /** A first tool call without `action` decides skip; one without `tasks` gives "". */
  lemma DecideDefaults(response: LlmResponse)
    requires |response.toolCalls| > 0
    ensures !HasKey(response.toolCalls[0].arguments, "action") ==> Decide(response).action == JStr("skip")
    ensures !HasKey(response.toolCalls[0].arguments, "tasks") ==> Decide(response).tasks == JStr("")
  {
  }

  /** When the LLM keeps to the tool schema (or calls no tool), the action is "skip" or
      "run" and the tasks are text. */
  lemma DecideWithinSchema(response: LlmResponse)
    requires |response.toolCalls| > 0 ==> FollowsSchema(response.toolCalls[0].arguments)
    ensures Decide(response).action in {JStr("skip"), JStr("run")}
    ensures Decide(response).tasks.JStr?
  {
    if |response.toolCalls| > 0 {
      var args := response.toolCalls[0].arguments;
      assert Lookup(args, "action").Some?;
      if HasKey(args, "tasks") {
        assert Get(args, "tasks", JStr("")) == Get(args, "tasks", JNull);
      }
    }
  }

  /** `start` on the lifecycle fields; `handle` is what `create_task` would return. */
  function StartNext(enabled: bool, s: Lifecycle, handle: TaskHandle): (t: Lifecycle)
    ensures !enabled ==> t == s
    ensures s.running ==> t == s
    ensures enabled && !s.running ==> t.running && t.task == Some(handle)
  {
    if !enabled || s.running then s else Lifecycle(true, Some(handle))
  }

  /** `stop` on the lifecycle fields. */
  function StopNext(s: Lifecycle): (t: Lifecycle)
    ensures !t.running && t.task.None?
  {
    Lifecycle(false, None)
  }

  /** The service keeps a task handle exactly while it is running. */
  predicate Consistent(s: Lifecycle) {
    s.running <==> s.task.Some?
  }

  lemma StartAndStopKeepConsistent(enabled: bool, s: Lifecycle, handle: TaskHandle)
    requires Consistent(s)
    ensures Consistent(StartNext(enabled, s, handle))
    ensures Consistent(StopNext(s))
  {
  }

  /** Starting twice keeps the task of the first start, whatever handle the second
      would have received: no second loop is created. */
  lemma StartIsIdempotent(enabled: bool, s: Lifecycle, h1: TaskHandle, h2: TaskHandle)
    ensures StartNext(enabled, StartNext(enabled, s, h1), h2) == StartNext(enabled, s, h1)
  {
  }

  /** Stopping twice is the same as stopping once. */
  lemma StopIsIdempotent(s: Lifecycle)
    ensures StopNext(StopNext(s)) == StopNext(s)
  {
  }

  /** The i-th round of the timer loop: whether `stop` is called during its sleep, and
      what the collaborators answer if it ticks. */
  datatype Round = Round(stopDuringSleep: bool, file: HeartbeatFile,
                         oracle: Outcome<LlmResponse>, execute: Outcome<string>)

  /** The number of rounds before the first one whose sleep sees a `stop`. */
  function RoundsBeforeStop(rounds: seq<Round>): (n: nat)
    ensures n <= |rounds|
    ensures forall i | 0 <= i < n :: !rounds[i].stopDuringSleep
    ensures n < |rounds| ==> rounds[n].stopDuringSleep
  {
    if |rounds| == 0 || rounds[0].stopDuringSleep then 0
    else 1 + RoundsBeforeStop(rounds[1..])
  }

  class HeartbeatService {
    const workspace: string
    const model: string
    const intervalS: int
    const enabled: bool
    /** Whether `on_execute` and `on_notify` were given. */
    const hasExecute: bool
    const hasNotify: bool

    var running: bool
    var task: Option<TaskHandle>

    /** Every task handle `start` has created, and every one `stop` has cancelled. */
    ghost var created: seq<TaskHandle>
    ghost var cancelled: seq<TaskHandle>

    function State(): Lifecycle
      reads this
    {
      Lifecycle(running, task)
    }

    ghost predicate Valid()
      reads this
    {
      Consistent(State())
    }

    constructor (workspace: string, model: string, hasExecute: bool, hasNotify: bool,
                 intervalS: int, enabled: bool)
      ensures this.workspace == workspace && this.model == model
      ensures this.hasExecute == hasExecute && this.hasNotify == hasNotify
      ensures this.intervalS == intervalS && this.enabled == enabled
      ensures !running && task == None && Valid()
      ensures created == [] && cancelled == []
    {
      this.workspace := workspace;
      this.model := model;
      this.hasExecute := hasExecute;
      this.hasNotify := hasNotify;
      this.intervalS := intervalS;
      this.enabled := enabled;
      running := false;
      task := None;
      created := [];
      cancelled := [];
    }

    /** `start`: a disabled or already running service is left as it is; otherwise it is
        running with the new task as its one recorded handle. */
    method Start(handle: TaskHandle)
      modifies this
      ensures old(Valid()) ==> Valid()
      ensures State() == StartNext(enabled, old(State()), handle)
      ensures created == (if enabled && !old(running) then old(created) + [handle] else old(created))
      ensures cancelled == old(cancelled)
    {
      if !enabled {
        return;
      }
      if running {
        return;
      }
      running := true;
      task := Some(handle);
      created := created + [handle];
    }

    /** `stop`: not running, no task, and the old task (if any) cancelled. */
    method Stop()
      modifies this
      ensures Valid()
      ensures State() == StopNext(old(State()))
      ensures cancelled == (if old(task).Some? then old(cancelled) + [old(task).value] else old(cancelled))
      ensures created == old(created)
    {
      running := false;
      if task.Some? {
        cancelled := cancelled + [task.value];
        task := None;
      }
    }

    /** `_tick`, given what the file holds, what the LLM answers and what `on_execute`
        returns or raises; the result is the calls it makes, in order. A failing chat or
        execute call is swallowed, so a tick never raises. */
    function Tick(file: HeartbeatFile, oracle: Outcome<LlmResponse>, execute: Outcome<string>): (events: seq<Event>)
      ensures events == [] <==> !HasContent(file)
      ensures HasContent(file) ==> events[0] == Asked(DecisionRequest(model, file.text))
      ensures |events| <= 3
      ensures forall i | 0 < i < |events| :: !events[i].Asked?
      // on_execute is called only on "run", and with exactly the decided tasks
      ensures forall i | 0 <= i < |events| && events[i].Executed? ::
        i == 1 && hasExecute && oracle.Returned? &&
        Decide(oracle.value) == Decision(JStr("run"), events[i].tasks)
      ensures HasContent(file) && hasExecute && oracle.Returned? && Decide(oracle.value).action == JStr("run") ==>
        |events| >= 2 && events[1] == Executed(Decide(oracle.value).tasks)
      // on_notify gets the execute result exactly when it is non-empty and registered
      ensures forall i | 0 <= i < |events| && events[i].Notified? ::
        i == 2 && events[1].Executed? && hasNotify && execute == Returned(events[i].result) &&
        events[i].result != ""
      ensures |events| >= 2 && events[1].Executed? && hasNotify && execute.Returned? && execute.value != "" ==>
        |events| == 3 && events[2] == Notified(execute.value)
    {
      match ReadHeartbeatFile(file)
      case None => []
      case Some(content) =>
        if content == "" then []
        else
          var ask := Asked(DecisionRequest(model, content));
          match oracle
          case Raised(_) => [ask]
          case Returned(response) =>
            var d := Decide(response);
            if d.action != JStr("run") || !hasExecute then [ask]
            else
              match execute
              case Raised(_) => [ask, Executed(d.tasks)]
              case Returned(result) =>
                if result != "" && hasNotify then [ask, Executed(d.tasks), Notified(result)]
                else [ask, Executed(d.tasks)]
    }

    /** `trigger_now`: one decision and execution outside the timer. It returns None when
        there is no content, the action is not "run" or no `on_execute` is registered,
        and otherwise the execute result unchanged; it never notifies, and failures of
        the chat or execute call propagate. */
    function TriggerNow(file: HeartbeatFile, oracle: Outcome<LlmResponse>, execute: Outcome<string>): (t: Trigger)
      ensures !HasContent(file) ==> t == Trigger([], Returned(None))
      ensures HasContent(file) ==> |t.events| >= 1 && t.events[0] == Asked(DecisionRequest(model, file.text))
      ensures forall i | 0 <= i < |t.events| :: !t.events[i].Notified?
      ensures HasContent(file) && oracle.Raised? ==> t.result == Raised(oracle.exc)
      ensures HasContent(file) && oracle.Returned? && (Decide(oracle.value).action != JStr("run") || !hasExecute) ==>
        t.result == Returned(None) && |t.events| == 1
      ensures HasContent(file) && oracle.Returned? && Decide(oracle.value).action == JStr("run") && hasExecute ==>
        t.events == [t.events[0], Executed(Decide(oracle.value).tasks)] &&
        t.result == (match execute case Returned(r) => Returned(Some(r)) case Raised(e) => Raised(e))
    {
      match ReadHeartbeatFile(file)
      case None => Trigger([], Returned(None))
      case Some(content) =>
        if content == "" then Trigger([], Returned(None))
        else
          var ask := Asked(DecisionRequest(model, content));
          match oracle
          case Raised(e) => Trigger([ask], Raised(e))
          case Returned(response) =>
            var d := Decide(response);
            if d.action != JStr("run") || !hasExecute then Trigger([ask], Returned(None))
            else
              match execute
              case Raised(e) => Trigger([ask, Executed(d.tasks)], Raised(e))
              case Returned(result) => Trigger([ask, Executed(d.tasks)], Returned(Some(result)))
    }

    /** `_run_loop` over a finite schedule of rounds: each round sleeps (during which
        `stop` may be called) and then ticks if the service is still running; the loop
        ends once it is stopped. The result is the calls made by each tick. */
    method RunLoop(rounds: seq<Round>) returns (ticks: seq<seq<Event>>)
      requires Valid()
      modifies this
      ensures Valid()
      ensures |ticks| == (if old(running) then RoundsBeforeStop(rounds) else 0)
      ensures forall k | 0 <= k < |ticks| ::
        ticks[k] == Tick(rounds[k].file, rounds[k].oracle, rounds[k].execute)
      ensures running == (old(running) && RoundsBeforeStop(rounds) == |rounds|)
      ensures running ==> task == old(task)
      ensures !running ==> task.None?
      ensures created == old(created)
      // the round whose sleep sees the stop cancels the loop's task, and nothing else is cancelled
      ensures cancelled == (if old(running) && !running then old(cancelled) + [old(task).value] else old(cancelled))
    {
      ticks := [];
      var i := 0;
      while running && i < |rounds|
        invariant 0 <= i <= |rounds|
        invariant running ==> i <= RoundsBeforeStop(rounds) && task == old(task)
        invariant running ==> old(running)
        invariant !running ==> task.None? || !old(running)
        invariant !running && old(running) ==> i == RoundsBeforeStop(rounds) + 1
        invariant |ticks| == (if old(running) then (if running then i else i - 1) else 0)
        invariant forall k | 0 <= k < |ticks| ::
          ticks[k] == Tick(rounds[k].file, rounds[k].oracle, rounds[k].execute)
        invariant created == old(created)
        invariant cancelled == (if old(running) && !running then old(cancelled) + [old(task).value] else old(cancelled))
        invariant Valid()
      {
        if rounds[i].stopDuringSleep {
          Stop();
        }
        if running {
          ticks := ticks + [Tick(rounds[i].file, rounds[i].oracle, rounds[i].execute)];
        }
        i := i + 1;
      }
    }
  }

  /** `trigger_now` makes the same chat and execute calls as a tick of the same inputs;
      the tick may only add the notify call after them. */
  lemma TriggerAgreesWithTick(s: HeartbeatService, file: HeartbeatFile,
                              oracle: Outcome<LlmResponse>, execute: Outcome<string>)
    ensures var t := s.TriggerNow(file, oracle, execute).events;
            var k := s.Tick(file, oracle, execute);
            |t| <= |k| && k[..|t|] == t &&
            forall i | |t| <= i < |k| :: k[i].Notified?
  {
  }
}
