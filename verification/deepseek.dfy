/**
  The DeepSeek copilot (20-simple-copilot-deepseek-v3/simple_copilot_deepseek/main.py):
  the budgeted agent loop `custom_run_agent` with its step-by-step
  extraction of the web-search query, and the pieces of `direct_response`
  that work on data: the filter that formats the chat for the OpenAI-style
  API, the reader of the streamed `data: ` lines, and the re-chunking of a
  complete answer into 500-character deltas.
*/
module DeepSeek {
  import opened Wrappers
  import opened Json
  import opened Text
  import opened Models

  // ---------------------------------------------------------------------------
  // What the generators yield

  /**
    A yielded value: a `copilotMessageChunk` with its delta, the arguments
    of a `reasoning_step` call (whose rendering lives in common/agent.py),
    or an `error` event with its message.
  */
  datatype Event =
    | Delta(delta: Json)
    | Reasoning(kind: StatusKind, message: string, details: Option<Json>)
    | ErrorEvent(message: string)

  /** The chunk `{"delta": ""}` that signals the end of a response. */
  const Sentinel: Event := Delta(JStr(""))

  function Deltas(chunks: seq<string>): (r: seq<Event>)
    ensures |r| == |chunks|
    ensures forall i :: 0 <= i < |chunks| ==> r[i] == Delta(JStr(chunks[i]))
  {
    seq(|chunks|, i requires 0 <= i < |chunks| => Delta(JStr(chunks[i])))
  }

  // ---------------------------------------------------------------------------
  // custom_run_agent: the query of a web-search call

  const WebSearchName: string := "perplexity_web_search"
  const UnknownQuery: string := "Unable to determine query"

  /**
    A magentic `FunctionCall` as the loop inspects it: the name of the
    called function, and the `kwargs`, `arguments` and `args` attributes,
    each `None` when the object does not have it. Python's `None` is `JNull`.
  */
  datatype FunctionCallInfo = FunctionCallInfo(
    name: string,
    kwargs: Option<map<string, Json>>,
    arguments: Option<Json>,
    args: Option<seq<Json>>)

  /** `kwargs["query"]` when `kwargs` is a non-empty dict holding it, else `None`. */
  function KwargsQuery(fc: FunctionCallInfo): Json {
    if fc.kwargs.Some? && fc.kwargs.value != map[] && "query" in fc.kwargs.value
    then fc.kwargs.value["query"] else JNull
  }

  /** `arguments["query"]` when `arguments` is a dict holding it, else `None`. */
  function ArgumentsQuery(fc: FunctionCallInfo): Json {
    if fc.arguments.Some? && fc.arguments.value.JObj? && "query" in fc.arguments.value.fields
    then fc.arguments.value.fields["query"] else JNull
  }

  /** `args[0]` when `args` is non-empty, else `None`. */
  function ArgsQuery(fc: FunctionCallInfo): Json {
    if fc.args.Some? && |fc.args.value| > 0 then fc.args.value[0] else JNull
  }

  /** The places the query is looked for, in the order they are tried. */
  function Candidates(fc: FunctionCallInfo): seq<Json> {
    [KwargsQuery(fc), ArgumentsQuery(fc), ArgsQuery(fc)]
  }

  /** The first candidate that is not `None`, or the fallback text when there is none. */
  function FirstGiven(candidates: seq<Json>): Json {
    if candidates == [] then JStr(UnknownQuery)
    else if candidates[0] != JNull then candidates[0]
    else FirstGiven(candidates[1..])
  }

  /**
    `FirstGiven` never answers `None`: it answers the fallback exactly when
    every candidate is `None`, and otherwise the first candidate that is not.
  */
  lemma {:induction false} FirstGivenIsFirst(candidates: seq<Json>)
    ensures FirstGiven(candidates) != JNull
    ensures (forall i :: 0 <= i < |candidates| ==> candidates[i] == JNull) ==> FirstGiven(candidates) == JStr(UnknownQuery)
    ensures forall i :: 0 <= i < |candidates| && candidates[i] != JNull && (forall j :: 0 <= j < i ==> candidates[j] == JNull) ==>
              FirstGiven(candidates) == candidates[i]
  {
    if candidates != [] {
      FirstGivenIsFirst(candidates[1..]);
      if candidates[0] == JNull {
        forall i | 0 <= i < |candidates| && candidates[i] != JNull && (forall j :: 0 <= j < i ==> candidates[j] == JNull)
          ensures FirstGiven(candidates) == candidates[i]
        {
          assert candidates[i] == candidates[1..][i - 1];
          forall j | 0 <= j < i - 1
            ensures candidates[1..][j] == JNull
          {
            assert candidates[1..][j] == candidates[j + 1];
          }
        }
        if forall i :: 0 <= i < |candidates| ==> candidates[i] == JNull {
          forall j | 0 <= j < |candidates| - 1
            ensures candidates[1..][j] == JNull
          {
            assert candidates[1..][j] == candidates[j + 1];
          }
        }
      }
    }
  }

  /** The query a web-search call is made with. */
  function QueryOf(fc: FunctionCallInfo): (r: Json)
    ensures r != JNull
  {
    FirstGivenIsFirst(Candidates(fc));
    FirstGiven(Candidates(fc))
  }

  /** The extraction of the query, assigning `query` step by step. */
  method ExtractQuery(fc: FunctionCallInfo) returns (query: Json)
    ensures query == QueryOf(fc)
  {
    QueryPriority(fc);
    query := JNull;
    var kwargs := if fc.kwargs.Some? then fc.kwargs.value else map[];
    if kwargs != map[] && "query" in kwargs {
      query := kwargs["query"];
    }
    if query == JNull && fc.arguments.Some? {
      var arguments := fc.arguments.value;
      if arguments.JObj? && "query" in arguments.fields {
        query := arguments.fields["query"];
      }
    }
    if query == JNull && fc.args.Some? {
      var args := fc.args.value;
      if |args| > 0 {
        query := args[0];
      }
    }
    if query == JNull {
      query := JStr(UnknownQuery);
    }
  }

  /**
    The query comes from `kwargs`, else from a dict `arguments`, else from
    `args[0]`, each only when the earlier ones gave `None`; when all of them
    do, it is "Unable to determine query". It is never `None`.
  */
  lemma QueryPriority(fc: FunctionCallInfo)
    ensures QueryOf(fc) != JNull
    ensures KwargsQuery(fc) != JNull ==> QueryOf(fc) == KwargsQuery(fc)
    ensures KwargsQuery(fc) == JNull && ArgumentsQuery(fc) != JNull ==> QueryOf(fc) == ArgumentsQuery(fc)
    ensures KwargsQuery(fc) == JNull && ArgumentsQuery(fc) == JNull && ArgsQuery(fc) != JNull ==> QueryOf(fc) == ArgsQuery(fc)
    ensures KwargsQuery(fc) == JNull && ArgumentsQuery(fc) == JNull && ArgsQuery(fc) == JNull ==> QueryOf(fc) == JStr(UnknownQuery)
  {
    var c := Candidates(fc);
    FirstGivenIsFirst(c);
    assert c[0] == KwargsQuery(fc) && c[1] == ArgumentsQuery(fc) && c[2] == ArgsQuery(fc);
  }

  // ---------------------------------------------------------------------------
  // custom_run_agent: the loop

  /**
    What the LLM's last message holds after a submission: streamed text, a
    function call, or anything else (`None` when the message has no content).
  */
  datatype Reply =
    | StreamedReply(chunks: seq<string>)
    | CallReply(call: FunctionCallInfo)
    | OtherReply(content: Option<Json>)

  datatype ApiRole = SystemRole | UserRole | AssistantRole

  /** A message of the magentic chat. */
  datatype AgentMessage =
    | Said(role: ApiRole, text: string)
    | Replied(reply: Reply)
    | FunctionResult(content: string, call: FunctionCallInfo)

  /**
    The loop's foreign parts: the LLM (given the submission number and the
    chat), `perplexity_web_search`, calling any other function (each either
    returns the text of its result or raises an exception with the given
    text), and `str` of a value.
  */
  datatype AgentEnv = AgentEnv(
    submit: (nat, seq<AgentMessage>) -> Reply,
    search: Json -> Result<string, string>,
    invoke: FunctionCallInfo -> Result<string, string>,
    show: Json -> string)

  const UnexpectedReply: string := "Unexpected response type from LLM"

  const SearchErrorPrefix: string := "Error searching the web: "
  const CallErrorPrefix: string := "Error: "

  /**
    The content of the function result a call adds to the chat: its output,
    or the prefix of its handler followed by the exception's text.
  */
  function ResultText(errorPrefix: string, outcome: Result<string, string>): (r: string)
    ensures outcome.Success? ==> r == outcome.value
    ensures outcome.Failure? ==> r == errorPrefix + outcome.error
  {
    match outcome
    case Success(text) => text
    case Failure(e) => errorPrefix + e
  }

  /** The status that announces a web search. */
  function Searching(query: Json, show: Json -> string): Event {
    Reasoning(INFO, "Searching the web for: " + Shown(query, show), Some(JArr([])))
  }

  /** What one round does: go on with more events and a longer chat, or stop with its final events. */
  datatype AgentTurn = Continue(events: seq<Event>, chat: seq<AgentMessage>) | Stop(events: seq<Event>, chat: seq<AgentMessage>)

  /**
    One round, the `count`-th submission: streamed text is forwarded with
    the sentinel and ends the loop; a web search is announced and its
    result (or error) is added to the chat; any other call's result (or
    error) is added to the chat; any other reply is forwarded once with the
    sentinel if it is truthy, or reported as an error, and ends the loop.
  */
  function TakeAgentTurn(env: AgentEnv, chat: seq<AgentMessage>, count: nat): (r: AgentTurn)
    ensures AgentTurnShape(chat, r)
  {
    var reply := env.submit(count, chat);
    var asked := chat + [Replied(reply)];
    assert asked[..|chat|] == chat;
    match reply
    case StreamedReply(chunks) => Stop(Deltas(chunks) + [Sentinel], asked)
    case CallReply(fc) =>
      if fc.name == WebSearchName then
        var query := QueryOf(fc);
        Continue([Searching(query, env.show)], asked + [FunctionResult(ResultText(SearchErrorPrefix, env.search(query)), fc)])
      else
        Continue([], asked + [FunctionResult(ResultText(CallErrorPrefix, env.invoke(fc)), fc)])
    case OtherReply(content) =>
      if content.Some? && Truthy(content.value)
      then Stop([Delta(JStr(Shown(content.value, env.show))), Sentinel], asked)
      else Stop([ErrorEvent(UnexpectedReply)], asked)
  }

  /**
    The events that end a run: chunks followed by the sentinel, or the
    single error event.
  */
  predicate Terminal(events: seq<Event>) {
    || (|events| >= 1 && events[|events| - 1] == Sentinel && forall i :: 0 <= i < |events| - 1 ==> events[i].Delta?)
    || events == [ErrorEvent(UnexpectedReply)]
  }

  /**
    What any round does: a round that goes on appended the call and exactly
    one function result for it, and yielded at most one INFO status; a round
    that stops appended the reply, which is no call, and yielded terminal
    events.
  */
  predicate AgentTurnShape(chat: seq<AgentMessage>, t: AgentTurn) {
    match t
    case Continue(events, next) =>
      && |next| == |chat| + 2 && next[..|chat|] == chat
      && next[|chat|].Replied? && next[|chat|].reply.CallReply?
      && next[|chat| + 1].FunctionResult? && next[|chat| + 1].call == next[|chat|].reply.call
      && |events| <= 1 && (forall i :: 0 <= i < |events| ==> events[i].Reasoning? && events[i].kind == INFO)
    case Stop(events, next) =>
      && |next| == |chat| + 1 && next[..|chat|] == chat
      && next[|chat|].Replied? && !next[|chat|].reply.CallReply?
      && Terminal(events)
  }

  /**
    The rounds of a function call: the call and its result are appended
    whatever happens, a failure becoming the result's text; a web search
    also yields exactly one status naming the query, any other call nothing.
  */
  lemma CallRound(env: AgentEnv, chat: seq<AgentMessage>, count: nat, fc: FunctionCallInfo)
    requires env.submit(count, chat) == CallReply(fc)
    ensures var t := TakeAgentTurn(env, chat, count);
            && t.Continue?
            && t.chat == chat + [Replied(CallReply(fc)), FunctionResult(t.chat[|chat| + 1].content, fc)]
            && (fc.name == WebSearchName ==>
                  && t.events == [Reasoning(INFO, "Searching the web for: " + Shown(QueryOf(fc), env.show), Some(JArr([])))]
                  && t.chat[|chat| + 1].content == ResultText(SearchErrorPrefix, env.search(QueryOf(fc))))
            && (fc.name != WebSearchName ==>
                  && t.events == []
                  && t.chat[|chat| + 1].content == ResultText(CallErrorPrefix, env.invoke(fc)))
  {
  }

  /** A streamed reply forwards its chunks in order, then the sentinel, and ends the loop. */
  lemma StreamedRound(env: AgentEnv, chat: seq<AgentMessage>, count: nat, chunks: seq<string>)
    requires env.submit(count, chat) == StreamedReply(chunks)
    ensures var t := TakeAgentTurn(env, chat, count);
            && t.Stop? && |t.events| == |chunks| + 1 && t.events[|chunks|] == Sentinel
            && forall i :: 0 <= i < |chunks| ==> t.events[i] == Delta(JStr(chunks[i]))
  {
  }

  /**
    Any other reply ends the loop: a truthy content is forwarded once as
    text and followed by the sentinel, anything else gives the single error
    event.
  */
  lemma OtherRound(env: AgentEnv, chat: seq<AgentMessage>, count: nat, content: Option<Json>)
    requires env.submit(count, chat) == OtherReply(content)
    ensures var t := TakeAgentTurn(env, chat, count);
            && t.Stop?
            && (content.Some? && Truthy(content.value) ==> t.events == [Delta(JStr(Shown(content.value, env.show))), Sentinel])
            && (!(content.Some? && Truthy(content.value)) ==> t.events == [ErrorEvent(UnexpectedReply)])
  {
  }

  type AgentStepper = (seq<AgentMessage>, nat) -> AgentTurn

  function AgentStepperOf(env: AgentEnv): AgentStepper {
    (chat: seq<AgentMessage>, count: nat) => TakeAgentTurn(env, chat, count)
  }

  /** Every round of a stepper has the shape of a loop round. */
  ghost predicate AgentSound(step: AgentStepper) {
    forall chat, count :: AgentTurnShape(chat, step(chat, count))
  }

  lemma AgentStepperSound(env: AgentEnv)
    ensures AgentSound(AgentStepperOf(env))
  {
    forall chat, count
      ensures AgentTurnShape(chat, AgentStepperOf(env)(chat, count))
    {
      assert AgentStepperOf(env)(chat, count) == TakeAgentTurn(env, chat, count);
    }
  }

  /**
    A run: the events of the rounds that went on, the chat it leaves, how
    many submissions it made, and the events of the round that ended it
    (none when the budget ran out).
  */
  datatype AgentRun = AgentRun(progress: seq<Event>, chat: seq<AgentMessage>, submits: nat, ending: seq<Event>)

  /** The rounds from the `count`-th submission on, with at most `max` submissions in all. */
  function AgentRounds(step: AgentStepper, chat: seq<AgentMessage>, count: nat, max: int): (r: AgentRun)
    ensures count < max ==> 1 <= r.submits <= max - count
    decreases max - count
  {
    if count >= max then AgentRun([], chat, 0, [])
    else match step(chat, count)
      case Stop(events, next) => AgentRun([], next, 1, events)
      case Continue(events, next) =>
        var rest := AgentRounds(step, next, count + 1, max);
        AgentRun(events + rest.progress, rest.chat, 1 + rest.submits, rest.ending)
  }

  function AgentLoop(env: AgentEnv, chat: seq<AgentMessage>, maxCompletions: int): AgentRun {
    AgentRounds(AgentStepperOf(env), chat, 0, maxCompletions)
  }

  /** The events `custom_run_agent` yields: the statuses of the rounds that went on, then the final round's. */
  function Yield(r: AgentRun): seq<Event> {
    r.progress + r.ending
  }

  lemma AgentRoundsStep(step: AgentStepper, chat: seq<AgentMessage>, count: nat, max: int, events: seq<Event>, next: seq<AgentMessage>)
    requires count < max && step(chat, count) == Continue(events, next)
    ensures var rest := AgentRounds(step, next, count + 1, max);
            AgentRounds(step, chat, count, max) == AgentRun(events + rest.progress, rest.chat, 1 + rest.submits, rest.ending)
  {
  }

  lemma AgentRoundsStop(step: AgentStepper, chat: seq<AgentMessage>, count: nat, max: int, events: seq<Event>, next: seq<AgentMessage>)
    requires count < max && step(chat, count) == Stop(events, next)
    ensures AgentRounds(step, chat, count, max) == AgentRun([], next, 1, events)
  {
  }

  /**
    The `while completion_count < max_completions` loop of
    `custom_run_agent`, whose body is one round of `step`.
  */
  method RunRounds(step: AgentStepper, chat0: seq<AgentMessage>, maxCompletions: int)
    returns (events: seq<Event>, chat: seq<AgentMessage>, completionCount: nat)
    ensures var r := AgentRounds(step, chat0, 0, maxCompletions);
            events == Yield(r) && chat == r.chat && completionCount == r.submits
  {
    ghost var all := AgentRounds(step, chat0, 0, maxCompletions);
    ghost var rest := all;
    events, chat, completionCount := [], chat0, 0;
    while completionCount < maxCompletions
      invariant rest == AgentRounds(step, chat, completionCount, maxCompletions)
      invariant all.progress == events + rest.progress && all.chat == rest.chat
      invariant all.submits == completionCount + rest.submits && all.ending == rest.ending
      decreases maxCompletions - completionCount
    {
      var turn := step(chat, completionCount);
      if turn.Stop? {
        AgentRoundsStop(step, chat, completionCount, maxCompletions, turn.events, turn.chat);
        assert rest == AgentRun([], turn.chat, 1, turn.events);
        assert all.progress == events && all.ending == turn.events;
        return events + turn.events, turn.chat, completionCount + 1;
      }
      AgentRoundsStep(step, chat, completionCount, maxCompletions, turn.events, turn.chat);
      rest := AgentRounds(step, turn.chat, completionCount + 1, maxCompletions);
      events, chat, completionCount := events + turn.events, turn.chat, completionCount + 1;
    }
    assert rest == AgentRun([], chat, 0, []);
  }

  /** `custom_run_agent`: the loop, each of whose rounds is `TakeAgentTurn`. */
  method CustomRunAgent(env: AgentEnv, chat0: seq<AgentMessage>, maxCompletions: int)
    returns (events: seq<Event>, chat: seq<AgentMessage>, completionCount: nat)
    ensures var r := AgentLoop(env, chat0, maxCompletions);
            events == Yield(r) && chat == r.chat && completionCount == r.submits
  {
    events, chat, completionCount := RunRounds(AgentStepperOf(env), chat0, maxCompletions);
  }

  /** The submissions a run may still make from the `count`-th on. */
  function Budget(count: nat, max: int): nat {
    if count < max then max - count else 0
  }

  /**
    At most `max_completions` submissions: all of them when the run ends
    without a final round, which then yields nothing but the search
    statuses; otherwise the last submission ended the run with terminal
    events.
  */
  lemma {:induction false} AgentSubmits(step: AgentStepper, chat: seq<AgentMessage>, count: nat, max: int)
    requires AgentSound(step)
    ensures var r := AgentRounds(step, chat, count, max);
            && r.submits <= Budget(count, max)
            && (r.ending == [] ==> r.submits == Budget(count, max))
            && (r.ending != [] ==> r.submits >= 1 && Terminal(r.ending))
            && forall i :: 0 <= i < |r.progress| ==> r.progress[i].Reasoning? && r.progress[i].kind == INFO
    decreases max - count
  {
    if count < max {
      var turn := step(chat, count);
      assert AgentTurnShape(chat, turn);
      if turn.Continue? {
        AgentSubmits(step, turn.chat, count + 1, max);
      }
    }
  }

  /** `k` function-call rounds' messages: each the call, then exactly one result for that call. */
  predicate CallRounds(added: seq<AgentMessage>, k: nat) {
    if k == 0 then added == []
    else && |added| >= 2
         && added[0].Replied? && added[0].reply.CallReply?
         && added[1].FunctionResult? && added[1].call == added[0].reply.call
         && CallRounds(added[2..], k - 1)
  }

  /** How many rounds of a run went on: every submission but the one that ended the run. */
  function CallCount(r: AgentRun): int {
    if r.ending == [] then r.submits else r.submits - 1
  }

  /**
    A run grows the chat by the call and its one result for every round
    that went on, and by the final reply, which is no call, when a round
    ended the run.
  */
  predicate RunChat(chat: seq<AgentMessage>, r: AgentRun) {
    var k := CallCount(r);
    var tail := if r.ending == [] then 0 else 1;
    && 0 <= k && |r.chat| == |chat| + 2 * k + tail && r.chat[..|chat|] == chat
    && CallRounds(r.chat[|chat|..|chat| + 2 * k], k)
    && (tail == 1 ==> r.chat[|r.chat| - 1].Replied? && !r.chat[|r.chat| - 1].reply.CallReply?)
  }

  lemma CallRoundsCons(pair: seq<AgentMessage>, added: seq<AgentMessage>, k: nat)
    requires |pair| == 2 && pair[0].Replied? && pair[0].reply.CallReply?
    requires pair[1].FunctionResult? && pair[1].call == pair[0].reply.call
    requires CallRounds(added, k)
    ensures CallRounds(pair + added, k + 1)
  {
    assert (pair + added)[2..] == added;
  }

  lemma ContinueRunChat(chat: seq<AgentMessage>, turn: AgentTurn, rest: AgentRun)
    requires turn.Continue? && AgentTurnShape(chat, turn)
    requires RunChat(turn.chat, rest)
    ensures RunChat(chat, AgentRun(turn.events + rest.progress, rest.chat, 1 + rest.submits, rest.ending))
  {
    var r := AgentRun(turn.events + rest.progress, rest.chat, 1 + rest.submits, rest.ending);
    var k := CallCount(rest);
    var n := |turn.chat|;
    var pair := turn.chat[|chat|..];
    assert CallCount(r) == k + 1;
    assert rest.chat[..n] == turn.chat;
    assert r.chat[..|chat|] == chat;
    assert r.chat[|chat|..|chat| + 2 * (k + 1)] == pair + rest.chat[n..n + 2 * k];
    CallRoundsCons(pair, rest.chat[n..n + 2 * k], k);
  }

  lemma StopRunChat(chat: seq<AgentMessage>, turn: AgentTurn)
    requires turn.Stop? && AgentTurnShape(chat, turn)
    ensures RunChat(chat, AgentRun([], turn.chat, 1, turn.events))
  {
    assert turn.chat[|chat|..|chat|] == [];
  }

  lemma ContinueRoundChat(step: AgentStepper, chat: seq<AgentMessage>, count: nat, max: int)
    requires count < max && step(chat, count).Continue? && AgentTurnShape(chat, step(chat, count))
    requires RunChat(step(chat, count).chat, AgentRounds(step, step(chat, count).chat, count + 1, max))
    ensures RunChat(chat, AgentRounds(step, chat, count, max))
  {
    var turn := step(chat, count);
    AgentRoundsStep(step, chat, count, max, turn.events, turn.chat);
    ContinueRunChat(chat, turn, AgentRounds(step, turn.chat, count + 1, max));
  }

  lemma StopRoundChat(step: AgentStepper, chat: seq<AgentMessage>, count: nat, max: int)
    requires count < max && step(chat, count).Stop? && AgentTurnShape(chat, step(chat, count))
    ensures RunChat(chat, AgentRounds(step, chat, count, max))
  {
    var turn := step(chat, count);
    AgentRoundsStop(step, chat, count, max, turn.events, turn.chat);
    StopRunChat(chat, turn);
  }

  /** Every round that went on left exactly one function result for its call in the chat. */
  lemma {:induction false} AgentChat(step: AgentStepper, chat: seq<AgentMessage>, count: nat, max: int)
    requires AgentSound(step)
    ensures RunChat(chat, AgentRounds(step, chat, count, max))
    decreases max - count
  {
    if count < max {
      var turn := step(chat, count);
      assert AgentTurnShape(chat, turn);
      if turn.Continue? {
        AgentChat(step, turn.chat, count + 1, max);
        ContinueRoundChat(step, chat, count, max);
      } else {
        StopRoundChat(step, chat, count, max);
      }
    } else {
      assert chat[|chat|..|chat|] == [];
    }
  }

  /**
    With the default budget `custom_run_agent` submits at most ten times;
    its events are search statuses, followed by terminal events exactly
    when it did not spend all ten submissions on function calls.
  */
  lemma DefaultBudget(env: AgentEnv, chat: seq<AgentMessage>)
    ensures var r := AgentLoop(env, chat, 10);
            && r.submits <= 10
            && (r.ending == [] <==> CallCount(r) == 10)
            && (r.ending != [] ==> Terminal(r.ending))
            && RunChat(chat, r)
  {
    AgentStepperSound(env);
    AgentSubmits(AgentStepperOf(env), chat, 0, 10);
    AgentChat(AgentStepperOf(env), chat, 0, 10);
  }

  // ---------------------------------------------------------------------------
  // direct_response: formatting the chat

  /**
    A message `process_messages` hands over: system and user messages carry
    text; an assistant message's content is text or something else (`None`,
    e.g. a function call); other messages are function results and the like.
  */
  datatype ProcessedMessage =
    | SystemMessage(content: string)
    | UserMessage(content: string)
    | AssistantMessage(text: Option<string>)
    | OtherMessage

  /** A `{"role": ..., "content": ...}` dict sent to the API. */
  datatype ApiMessage = ApiMessage(role: ApiRole, content: string)

  /** The dict a message is forwarded as, if it is forwarded. */
  function Forward(m: ProcessedMessage): (r: Option<ApiMessage>)
    ensures r.Some? <==> m.SystemMessage? || m.UserMessage? || (m.AssistantMessage? && m.text.Some?)
    ensures r.Some? ==> r.value.content == (if m.AssistantMessage? then m.text.value else m.content)
  {
    match m
    case SystemMessage(content) => Some(ApiMessage(SystemRole, content))
    case UserMessage(content) => Some(ApiMessage(UserRole, content))
    case AssistantMessage(text) => if text.Some? then Some(ApiMessage(AssistantRole, text.value)) else None
    case OtherMessage => None
  }

  /** The formatted messages of the first `n` messages. */
  function Formatted(msgs: seq<ProcessedMessage>, n: nat): seq<ApiMessage>
    requires n <= |msgs|
  {
    if n == 0 then []
    else Formatted(msgs, n - 1) + (if Forward(msgs[n - 1]).Some? then [Forward(msgs[n - 1]).value] else [])
  }

  /** The loop that builds `formatted_messages` by `append`. */
  method FormatMessages(msgs: seq<ProcessedMessage>) returns (formatted: seq<ApiMessage>)
    ensures formatted == Formatted(msgs, |msgs|)
  {
    formatted := [];
    for i := 0 to |msgs|
      invariant formatted == Formatted(msgs, i)
    {
      match msgs[i]
      case SystemMessage(content) =>
        formatted := formatted + [ApiMessage(SystemRole, content)];
      case UserMessage(content) =>
        formatted := formatted + [ApiMessage(UserRole, content)];
      case AssistantMessage(text) =>
        if text.Some? {
          formatted := formatted + [ApiMessage(AssistantRole, text.value)];
        }
      case OtherMessage =>
    }
  }

  /** How many of the first `n` messages are forwarded. */
  function ForwardedCount(msgs: seq<ProcessedMessage>, n: nat): (k: nat)
    requires n <= |msgs|
    ensures k <= n
  {
    if n == 0 then 0 else ForwardedCount(msgs, n - 1) + (if Forward(msgs[n - 1]).Some? then 1 else 0)
  }

  lemma {:induction false} ForwardedCountMonotone(msgs: seq<ProcessedMessage>, m: nat, n: nat)
    requires m <= n <= |msgs|
    ensures ForwardedCount(msgs, m) <= ForwardedCount(msgs, n)
    decreases n - m
  {
    if m < n {
      ForwardedCountMonotone(msgs, m, n - 1);
    }
  }

  /**
    Formatting keeps exactly the system messages, the user messages and the
    assistant messages with text, in order: the dict of message `j` sits at
    the number of forwarded messages before it, and there are no others.
  */
  lemma {:induction false} FormattedOrder(msgs: seq<ProcessedMessage>, n: nat)
    requires n <= |msgs|
    ensures var out := Formatted(msgs, n);
            && |out| == ForwardedCount(msgs, n)
            && forall j :: 0 <= j < n && Forward(msgs[j]).Some? ==>
                 ForwardedCount(msgs, j) < |out| && out[ForwardedCount(msgs, j)] == Forward(msgs[j]).value
  {
    if n > 0 {
      FormattedOrder(msgs, n - 1);
      forall j | 0 <= j < n && Forward(msgs[j]).Some?
        ensures ForwardedCount(msgs, j) < |Formatted(msgs, n)|
                && Formatted(msgs, n)[ForwardedCount(msgs, j)] == Forward(msgs[j]).value
      {
        if j < n - 1 {
          ForwardedCountMonotone(msgs, j + 1, n - 1);
        }
      }
    }
  }

  // ---------------------------------------------------------------------------
  // direct_response: reading the streamed lines

  const DataPrefix: string := "data: "
  const DoneMarker: string := "[DONE]"

  /** The WARNING a line that is not JSON yields. */
  const DecodeWarning: Event :=
    Reasoning(WARNING, "Encountered an issue processing part of the response.",
              Some(JObj(map["error_type" := JStr("JSON decode error")])))

  /**
    `chunk.get("choices", [{}])[0].get("delta", {}).get("content")`, or
    `None` when that expression raises (the chunk, its first choice or the
    delta is no dict, or `choices` is no non-empty list).
  */
  function DeltaContent(chunk: Json): Option<Json> {
    if !chunk.JObj? then None
    else
      var choices := if "choices" in chunk.fields then chunk.fields["choices"] else JArr([JObj(map[])]);
      if !choices.JArr? || |choices.items| == 0 || !choices.items[0].JObj? then None
      else
        var first := choices.items[0].fields;
        var delta := if "delta" in first then first["delta"] else JObj(map[]);
        if !delta.JObj? then None
        else Some(if "content" in delta.fields then delta.fields["content"] else JNull)
  }

  /**
    What one line does: a line not starting with "data: " is skipped; the
    payload "[DONE]" finishes the reading; a payload that is no JSON yields
    the WARNING; otherwise a truthy content is yielded as a delta, and an
    expression that raises ends the reading with the exception's text.
  */
  datatype LineOutcome = Skipped | Finished | Yielded(events: seq<Event>) | Raised(error: string)

  /** `json.loads`, and `str` of the exception the content expression raises on a decoded chunk. */
  datatype StreamEnv = StreamEnv(decode: string -> Option<Json>, fault: Json -> string)

  function ReadLine(line: string, env: StreamEnv): LineOutcome {
    if !StartsWith(line, DataPrefix) then Skipped else ReadPayload(Payload(line), env)
  }

  /** The stripped text after "data: ". */
  function Payload(line: string): string
    requires StartsWith(line, DataPrefix)
  {
    Strip(line[|DataPrefix|..])
  }

  /** What the payload of a data line does. */
  function ReadPayload(payload: string, env: StreamEnv): LineOutcome {
    if payload == DoneMarker then Finished
    else match env.decode(payload)
      case None => Yielded([DecodeWarning])
      case Some(chunk) =>
        match DeltaContent(chunk)
        case None => Raised(env.fault(chunk))
        case Some(content) => Yielded(if Truthy(content) then [Delta(content)] else [])
  }

  /**
    Lines without the "data: " prefix are skipped; exactly the payload
    "[DONE]" finishes the reading; a line yields at most one event, the
    WARNING or a truthy delta.
  */
  lemma ReadLineOutcome(line: string, env: StreamEnv)
    ensures !StartsWith(line, DataPrefix) ==> ReadLine(line, env) == Skipped
    ensures ReadLine(line, env) == Finished <==> StartsWith(line, DataPrefix) && Strip(line[|DataPrefix|..]) == DoneMarker
    ensures YieldsReadable(ReadLine(line, env))
  {
    if StartsWith(line, DataPrefix) {
      PayloadOutcome(Payload(line), env);
    }
  }

  lemma PayloadOutcome(payload: string, env: StreamEnv)
    ensures ReadPayload(payload, env) == Finished <==> payload == DoneMarker
    ensures YieldsReadable(ReadPayload(payload, env))
  {
    if payload != DoneMarker {
      match env.decode(payload)
      case None =>
        assert ReadPayload(payload, env) == Yielded([DecodeWarning]);
      case Some(chunk) =>
        var content := DeltaContent(chunk);
        if content.Some? {
          assert ReadPayload(payload, env) == Yielded(if Truthy(content.value) then [Delta(content.value)] else []);
        }
    }
  }

  /** What a line may yield: nothing, the decode WARNING, or one truthy delta. */
  predicate YieldsReadable(o: LineOutcome) {
    o.Yielded? ==> |o.events| <= 1 && forall i :: 0 <= i < |o.events| ==> Readable(o.events[i])
  }

  predicate Readable(e: Event) {
    e == DecodeWarning || (e.Delta? && Truthy(e.delta))
  }

  type LineReader = string -> LineOutcome

  function ReaderOf(env: StreamEnv): LineReader {
    (line: string) => ReadLine(line, env)
  }

  /** The outcome of every line, as if each were read. */
  function OutcomesBy(lines: seq<string>, read: LineReader): (r: seq<LineOutcome>)
    ensures |r| == |lines|
    ensures forall i :: 0 <= i < |lines| ==> r[i] == read(lines[i])
  {
    seq(|lines|, i requires 0 <= i < |lines| => read(lines[i]))
  }

  function Outcomes(lines: seq<string>, env: StreamEnv): (r: seq<LineOutcome>)
    ensures |r| == |lines|
    ensures forall i :: 0 <= i < |lines| ==> r[i] == ReadLine(lines[i], env)
  {
    OutcomesBy(lines, ReaderOf(env))
  }

  datatype ReadEnd = Open | Done | Failed(error: string)

  /** The events the first lines yielded, and whether reading stopped. */
  datatype Reading = Reading(events: seq<Event>, end: ReadEnd)

  /** Reading the lines whose outcomes are the first `n` of `outcomes`, stopping at the first that finishes or raises. */
  function ReadFrom(outcomes: seq<LineOutcome>, n: nat): Reading
    requires n <= |outcomes|
  {
    if n == 0 then Reading([], Open)
    else
      var r := ReadFrom(outcomes, n - 1);
      if r.end != Open then r
      else match outcomes[n - 1]
        case Skipped => r
        case Finished => Reading(r.events, Done)
        case Yielded(events) => Reading(r.events + events, Open)
        case Raised(e) => Reading(r.events, Failed(e))
  }

  function ReadLines(lines: seq<string>, n: nat, env: StreamEnv): Reading
    requires n <= |lines|
  {
    ReadFrom(Outcomes(lines, env), n)
  }

  /** Once reading stopped, later lines change nothing. */
  lemma {:induction false} ReadingStops(outcomes: seq<LineOutcome>, m: nat, n: nat)
    requires m <= n <= |outcomes| && ReadFrom(outcomes, m).end != Open
    ensures ReadFrom(outcomes, n) == ReadFrom(outcomes, m)
    decreases n - m
  {
    if m < n {
      ReadingStops(outcomes, m, n - 1);
    }
  }

  const SearchFailedMessage: string := "Error occurred while searching the web."

  /** The ERROR status and the error event of the web-search handler, for an exception with text `e`. */
  function SearchFailed(e: string): seq<Event> {
    [Reasoning(ERROR, SearchFailedMessage, Some(JObj(map["error" := JStr(e)]))),
     ErrorEvent("Error with web search: " + e)]
  }

  /**
    What the final streamed request yields after reading: the lines'
    events, then the sentinel; or, when reading raised, the ERROR status and
    the error event of the web-search handler.
  */
  function ReadingEvents(r: Reading): seq<Event> {
    match r.end
    case Failed(e) => r.events + SearchFailed(e)
    case _ => r.events + [Sentinel]
  }

  function StreamAnswer(lines: seq<string>, env: StreamEnv): seq<Event> {
    ReadingEvents(ReadLines(lines, |lines|, env))
  }

  /**
    The loop over `aiter_lines()`, with its `continue`, `break` and the
    handler around it, each line classified by `read`.
  */
  method ReadStream(lines: seq<string>, read: LineReader) returns (events: seq<Event>)
    ensures events == ReadingEvents(ReadFrom(OutcomesBy(lines, read), |lines|))
  {
    ghost var outcomes := OutcomesBy(lines, read);
    events := [];
    for i := 0 to |lines|
      invariant ReadFrom(outcomes, i) == Reading(events, Open)
    {
      var outcome := read(lines[i]);
      match outcome {
        case Skipped =>
          continue;
        case Finished =>
          ReadingStops(outcomes, i + 1, |lines|);
          break;
        case Yielded(more) =>
          events := events + more;
        case Raised(e) =>
          ReadingStops(outcomes, i + 1, |lines|);
          return events + SearchFailed(e);
      }
    }
    events := events + [Sentinel];
  }

  /** The streaming part of `direct_response`: the loop, each line read by `ReadLine`. */
  method StreamLines(lines: seq<string>, env: StreamEnv) returns (events: seq<Event>)
    ensures events == StreamAnswer(lines, env)
  {
    events := ReadStream(lines, ReaderOf(env));
  }

  /** Everything the lines yield is a truthy delta or the decode WARNING. */
  lemma {:induction false} ReadFromEvents(outcomes: seq<LineOutcome>, n: nat)
    requires n <= |outcomes|
    requires forall i :: 0 <= i < |outcomes| ==> YieldsReadable(outcomes[i])
    ensures forall i :: 0 <= i < |ReadFrom(outcomes, n).events| ==> Readable(ReadFrom(outcomes, n).events[i])
  {
    if n > 0 {
      ReadFromEvents(outcomes, n - 1);
      var r := ReadFrom(outcomes, n - 1);
      if r.end == Open && outcomes[n - 1].Yielded? {
        var more := outcomes[n - 1].events;
        assert YieldsReadable(outcomes[n - 1]);
        assert ReadFrom(outcomes, n).events == r.events + more;
        forall i | 0 <= i < |r.events + more|
          ensures Readable((r.events + more)[i])
        {
          if i >= |r.events| {
            assert (r.events + more)[i] == more[i - |r.events|];
          } else {
            assert (r.events + more)[i] == r.events[i];
          }
        }
      }
    }
  }

  /** A `[DONE]` line ends the reading: no line after it is read. */
  lemma DoneEndsReading(lines: seq<string>, k: nat, env: StreamEnv)
    requires k < |lines| && ReadLines(lines, k, env).end == Open
    requires StartsWith(lines[k], DataPrefix) && Strip(lines[k][|DataPrefix|..]) == DoneMarker
    ensures ReadLines(lines, |lines|, env) == Reading(ReadLines(lines, k, env).events, Done)
  {
    var outcomes := Outcomes(lines, env);
    ReadLineOutcome(lines[k], env);
    assert outcomes[k] == Finished;
    ReadingStops(outcomes, k + 1, |lines|);
  }

  /**
    A data line that is not JSON, read while reading is open, adds exactly
    the one WARNING and reading goes on.
  */
  lemma UndecodableLineWarns(lines: seq<string>, k: nat, env: StreamEnv)
    requires k < |lines| && ReadLines(lines, k, env).end == Open
    requires StartsWith(lines[k], DataPrefix) && Strip(lines[k][|DataPrefix|..]) != DoneMarker
    requires env.decode(Strip(lines[k][|DataPrefix|..])).None?
    ensures ReadLines(lines, k + 1, env) == Reading(ReadLines(lines, k, env).events + [DecodeWarning], Open)
  {
    assert Outcomes(lines, env)[k] == Yielded([DecodeWarning]);
  }

  /**
    A data line whose chunk carries a truthy content, read while reading is
    open, forwards exactly that content as one delta and reading goes on.
  */
  lemma ContentForwarded(lines: seq<string>, k: nat, env: StreamEnv, chunk: Json, c: Json)
    requires k < |lines| && ReadLines(lines, k, env).end == Open
    requires StartsWith(lines[k], DataPrefix) && Strip(lines[k][|DataPrefix|..]) != DoneMarker
    requires env.decode(Strip(lines[k][|DataPrefix|..])) == Some(chunk)
    requires DeltaContent(chunk) == Some(c) && Truthy(c)
    ensures ReadLines(lines, k + 1, env) == Reading(ReadLines(lines, k, env).events + [Delta(c)], Open)
  {
    assert Outcomes(lines, env)[k] == Yielded([Delta(c)]);
  }

  /**
    The text a line carries: the string content of a data line's chunk, and
    nothing for any other line.
  */
  function LineText(line: string, env: StreamEnv): string {
    if !StartsWith(line, DataPrefix) then "" else PayloadText(Payload(line), env)
  }

  function PayloadText(payload: string, env: StreamEnv): string {
    if payload == DoneMarker then ""
    else match env.decode(payload)
      case Some(chunk) =>
        (match DeltaContent(chunk)
         case Some(JStr(text)) => text
         case _ => "")
      case None => ""
  }

  /** A line that ends the reading: the `[DONE]` marker, or a chunk whose content expression raises. */
  predicate StopsReading(line: string, env: StreamEnv) {
    StartsWith(line, DataPrefix) && PayloadStops(Payload(line), env)
  }

  predicate PayloadStops(payload: string, env: StreamEnv) {
    || payload == DoneMarker
    || (env.decode(payload).Some? && DeltaContent(env.decode(payload).value).None?)
  }

  /** The index of the first line from `i` on that ends the reading, or `|lines|`. */
  function FirstStopFrom(lines: seq<string>, i: nat, env: StreamEnv): (k: nat)
    requires i <= |lines|
    ensures i <= k <= |lines|
    ensures forall j :: i <= j < k ==> !StopsReading(lines[j], env)
    ensures k < |lines| ==> StopsReading(lines[k], env)
    decreases |lines| - i
  {
    if i == |lines| || StopsReading(lines[i], env) then i else FirstStopFrom(lines, i + 1, env)
  }

  function FirstStop(lines: seq<string>, env: StreamEnv): nat {
    FirstStopFrom(lines, 0, env)
  }

  /** The text each line carries. */
  function LineTexts(lines: seq<string>, env: StreamEnv): (r: seq<string>)
    ensures |r| == |lines|
    ensures forall i :: 0 <= i < |lines| ==> r[i] == LineText(lines[i], env)
  {
    seq(|lines|, i requires 0 <= i < |lines| => LineText(lines[i], env))
  }

  /** An outcome that keeps the reading open and whose events carry `text`. */
  predicate Carries(o: LineOutcome, text: string) {
    || (o.Skipped? && text == "")
    || (o.Yielded? && TextOf(o.events) == text)
  }

  /** A line ends the reading exactly when `ReadLine` finishes or raises on it. */
  lemma LineStops(line: string, env: StreamEnv)
    ensures StopsReading(line, env) <==> ReadLine(line, env).Finished? || ReadLine(line, env).Raised?
  {
    if StartsWith(line, DataPrefix) {
      PayloadStopsRead(Payload(line), env);
    }
  }

  lemma PayloadStopsRead(payload: string, env: StreamEnv)
    ensures PayloadStops(payload, env) <==> ReadPayload(payload, env).Finished? || ReadPayload(payload, env).Raised?
  {
    if payload != DoneMarker && env.decode(payload).Some? {
      var chunk := env.decode(payload).value;
      if DeltaContent(chunk).None? {
        assert ReadPayload(payload, env) == Raised(env.fault(chunk));
      }
    }
  }

  /** Any other line yields events whose text is the line's text. */
  lemma LineTextRead(line: string, env: StreamEnv)
    requires !StopsReading(line, env)
    ensures Carries(ReadLine(line, env), LineText(line, env))
  {
    if StartsWith(line, DataPrefix) {
      PayloadTextRead(Payload(line), env);
    }
  }

  lemma PayloadTextRead(payload: string, env: StreamEnv)
    requires !PayloadStops(payload, env)
    ensures Carries(ReadPayload(payload, env), PayloadText(payload, env))
  {
    match env.decode(payload) {
      case None =>
        assert ReadPayload(payload, env) == Yielded([DecodeWarning]);
        assert TextOf([DecodeWarning]) == "" by {
          assert [DecodeWarning][1..] == [];
        }
      case Some(chunk) =>
        var c := DeltaContent(chunk).value;
        var events := if Truthy(c) then [Delta(c)] else [];
        assert ReadPayload(payload, env) == Yielded(events);
        assert PayloadText(payload, env) == if c.JStr? then c.s else "";
        assert TextOf(events) == (if c.JStr? then c.s else "") by {
          if Truthy(c) {
            assert events[1..] == [];
          }
        }
    }
  }

  /** While every outcome keeps the reading open, the events read carry the texts, put together. */
  lemma {:induction false} ReadFromText(outcomes: seq<LineOutcome>, texts: seq<string>, n: nat)
    requires n <= |outcomes| == |texts|
    requires forall i :: 0 <= i < n ==> Carries(outcomes[i], texts[i])
    ensures ReadFrom(outcomes, n).end == Open
    ensures TextOf(ReadFrom(outcomes, n).events) == Concat(texts[..n])
  {
    if n > 0 {
      ReadFromText(outcomes, texts, n - 1);
      var r := ReadFrom(outcomes, n - 1);
      var o := outcomes[n - 1];
      assert Carries(o, texts[n - 1]);
      assert texts[..n] == texts[..n - 1] + [texts[n - 1]];
      ConcatAppend(texts[..n - 1], [texts[n - 1]]);
      assert Concat([texts[n - 1]]) == texts[n - 1] by {
        assert [texts[n - 1]][1..] == [];
      }
      if o.Yielded? {
        TextOfAppend(r.events, o.events);
      }
    }
  }

  /**
    When the reading is still open after `k` outcomes and the next ends it,
    the reading after all of them is closed and holds the same events.
  */
  lemma ReadToStop(outcomes: seq<LineOutcome>, k: nat)
    requires k < |outcomes| && ReadFrom(outcomes, k).end == Open
    requires outcomes[k].Finished? || outcomes[k].Raised?
    ensures ReadFrom(outcomes, |outcomes|).events == ReadFrom(outcomes, k).events
    ensures ReadFrom(outcomes, |outcomes|).end != Open
  {
    StopStep(outcomes, k);
    ReadingStops(outcomes, k + 1, |outcomes|);
  }

  /** The outcome that ends the reading adds no events. */
  lemma StopStep(outcomes: seq<LineOutcome>, k: nat)
    requires k < |outcomes| && ReadFrom(outcomes, k).end == Open
    requires outcomes[k].Finished? || outcomes[k].Raised?
    ensures ReadFrom(outcomes, k + 1).events == ReadFrom(outcomes, k).events
    ensures ReadFrom(outcomes, k + 1).end != Open
  {
  }

  /** Neither the sentinel nor the error events add text. */
  lemma ClosingAddsNoText(r: Reading)
    ensures TextOf(ReadingEvents(r)) == TextOf(r.events)
  {
    match r.end {
      case Failed(e) =>
        TextOfAppend(r.events, SearchFailed(e));
        var failed := SearchFailed(e);
        assert TextOf(failed) == "" by {
          assert TextOf(failed) == DeltaText(failed[0]) + TextOf(failed[1..]);
          assert TextOf(failed[1..]) == DeltaText(failed[1]) + TextOf(failed[1..][1..]);
          assert failed[1..][1..] == [];
        }
      case _ =>
        TextOfAppend(r.events, [Sentinel]);
        assert TextOf([Sentinel]) == "" by {
          assert [Sentinel][1..] == [];
        }
    }
  }

  /**
    The text the client puts together from the answer is the string content
    of the data lines before the first one that ends the reading, put
    together; the reading stops exactly when there is such a line.
  */
  lemma StreamedText(lines: seq<string>, env: StreamEnv)
    ensures TextOf(StreamAnswer(lines, env)) == Concat(LineTexts(lines, env)[..FirstStop(lines, env)])
    ensures ReadLines(lines, |lines|, env).end == Open <==> FirstStop(lines, env) == |lines|
  {
    var k := FirstStop(lines, env);
    var outcomes := Outcomes(lines, env);
    OpenUntilStop(lines, env);
    if k < |lines| {
      LineStops(lines[k], env);
      ReadToStop(outcomes, k);
    }
    ClosingAddsNoText(ReadFrom(outcomes, |lines|));
  }

  /** Up to the first line that ends it, the reading is open and holds the text of the lines read. */
  lemma OpenUntilStop(lines: seq<string>, env: StreamEnv)
    ensures var k := FirstStop(lines, env);
            && ReadLines(lines, k, env).end == Open
            && TextOf(ReadLines(lines, k, env).events) == Concat(LineTexts(lines, env)[..k])
  {
    var k := FirstStop(lines, env);
    var outcomes := Outcomes(lines, env);
    var texts := LineTexts(lines, env);
    forall i | 0 <= i < k
      ensures Carries(outcomes[i], texts[i])
    {
      LineTextRead(lines[i], env);
    }
    ReadFromText(outcomes, texts, k);
  }

  /**
    When no line raised, the answer ends with the sentinel, which is the
    only empty delta in it; otherwise it ends with the error event.
  */
  lemma StreamAnswerEnds(lines: seq<string>, env: StreamEnv)
    ensures var a := StreamAnswer(lines, env);
            && |a| >= 1
            && (!ReadLines(lines, |lines|, env).end.Failed? ==>
                  a[|a| - 1] == Sentinel && forall i :: 0 <= i < |a| - 1 ==> a[i] != Sentinel)
            && (ReadLines(lines, |lines|, env).end.Failed? ==> a[|a| - 1].ErrorEvent?)
  {
    var outcomes := Outcomes(lines, env);
    forall i | 0 <= i < |outcomes|
      ensures YieldsReadable(outcomes[i])
    {
      ReadLineOutcome(lines[i], env);
    }
    ReadFromEvents(outcomes, |lines|);
    forall i | 0 <= i < |ReadFrom(outcomes, |lines|).events|
      ensures ReadFrom(outcomes, |lines|).events[i] != Sentinel
    {
      assert Readable(ReadFrom(outcomes, |lines|).events[i]);
      assert DecodeWarning.Reasoning?;
    }
  }

  // ---------------------------------------------------------------------------
  // direct_response: re-chunking a complete answer

  const ChunkSize: nat := 500

  /** `[s[i:i+500] for i in range(0, len(s), 500)]` */
  function Slices(s: string): seq<string>
    decreases |s|
  {
    if s == "" then []
    else if |s| <= ChunkSize then [s]
    else [s[..ChunkSize]] + Slices(s[ChunkSize..])
  }

  /**
    The slices put back together give the text; each is non-empty and at
    most 500 characters long, all but the last exactly 500; and there are
    `ceil(len(s) / 500)` of them.
  */
  lemma {:induction false} SlicesCover(s: string)
    ensures Concat(Slices(s)) == s
    ensures |Slices(s)| == (|s| + ChunkSize - 1) / ChunkSize
    ensures forall k :: 0 <= k < |Slices(s)| ==> 0 < |Slices(s)[k]| <= ChunkSize
    ensures forall k :: 0 <= k < |Slices(s)| - 1 ==> |Slices(s)[k]| == ChunkSize
    decreases |s|
  {
    if |s| > ChunkSize {
      var rest := Slices(s[ChunkSize..]);
      SlicesCover(s[ChunkSize..]);
      assert Slices(s) == [s[..ChunkSize]] + rest;
      assert Slices(s)[1..] == rest;
      assert s == s[..ChunkSize] + s[ChunkSize..];
      forall k | 1 <= k < |Slices(s)|
        ensures Slices(s)[k] == rest[k - 1]
      {
      }
    } else if s != "" {
      assert Concat([s]) == s + Concat([]);
    }
  }

  const DirectAnswerMessage: string := "Found the answer directly without needing to search external sources."
  const NoContentMessage: string := "The model didn't generate any content for your query."
  const NoContentError: string := "No content received from model"

  /** What the content of an answer without tool calls is yielded as. */
  function ContentAnswer(content: string): (r: seq<Event>)
    ensures |r| >= 2
    ensures content == "" <==> r[|r| - 1] == ErrorEvent(NoContentError)
    ensures content != "" <==> r[|r| - 1] == Sentinel
  {
    if content == "" then [Reasoning(WARNING, NoContentMessage, None), ErrorEvent(NoContentError)]
    else Deltas(Slices(content)) + [Sentinel]
  }

  /** What an answer without tool calls yields, when there were `choices` and its content is `content`. */
  function DirectAnswer(hadChoices: bool, content: string): (r: seq<Event>)
    ensures |r| >= 2
    ensures hadChoices <==> r[0] == Reasoning(INFO, DirectAnswerMessage, None)
    ensures r[|r| - 1] == if content == "" then ErrorEvent(NoContentError) else Sentinel
  {
    (if hadChoices then [Reasoning(INFO, DirectAnswerMessage, None)] else []) + ContentAnswer(content)
  }

  /** The end of `direct_response`, with its loop over `range(0, len(content), 500)`. */
  method AnswerDirectly(hadChoices: bool, content: string) returns (events: seq<Event>)
    ensures events == DirectAnswer(hadChoices, content)
  {
    events := [];
    if hadChoices {
      events := events + [Reasoning(INFO, DirectAnswerMessage, None)];
    }
    if content == "" {
      events := events + [Reasoning(WARNING, NoContentMessage, None), ErrorEvent(NoContentError)];
      return;
    }
    ghost var head := events;
    var i := 0;
    while i < |content|
      invariant i <= |content| ==> head + Deltas(Slices(content)) == events + Deltas(Slices(content[i..]))
      invariant i > |content| ==> head + Deltas(Slices(content)) == events
      decreases |content| - i
    {
      var end := if i + ChunkSize < |content| then i + ChunkSize else |content|;
      var chunk := content[i..end];
      SlicesStep(content, i);
      events := events + [Delta(JStr(chunk))];
      i := i + ChunkSize;
    }
    if i == |content| {
      assert content[i..] == "";
    }
    assert events == head + Deltas(Slices(content));
    events := events + [Sentinel];
    assert ContentAnswer(content) == Deltas(Slices(content)) + [Sentinel];
  }

  /** Taking the slice at `i` leaves the slices from `i + 500` on. */
  lemma SlicesStep(s: string, i: nat)
    requires i < |s|
    ensures var end := if i + ChunkSize < |s| then i + ChunkSize else |s|;
            && Deltas(Slices(s[i..])) == [Delta(JStr(s[i..end]))] + (if i + ChunkSize <= |s| then Deltas(Slices(s[i + ChunkSize..])) else [])
  {
    var end := if i + ChunkSize < |s| then i + ChunkSize else |s|;
    if |s[i..]| > ChunkSize {
      assert s[i..][..ChunkSize] == s[i..end];
      assert s[i..][ChunkSize..] == s[i + ChunkSize..];
      assert Deltas([s[i..end]] + Slices(s[i + ChunkSize..])) == [Delta(JStr(s[i..end]))] + Deltas(Slices(s[i + ChunkSize..]));
    } else {
      assert s[i..] == s[i..end];
      if i + ChunkSize <= |s| {
        assert s[i + ChunkSize..] == "";
      }
    }
  }

  /** The text the client puts together: the string deltas, in order. */
  function TextOf(events: seq<Event>): string {
    if events == [] then "" else DeltaText(events[0]) + TextOf(events[1..])
  }

  /** The text one event adds: a text delta's text, nothing for any other event. */
  function DeltaText(e: Event): string {
    if e.Delta? && e.delta.JStr? then e.delta.s else ""
  }

  lemma {:induction false} TextOfAppend(a: seq<Event>, b: seq<Event>)
    ensures TextOf(a + b) == TextOf(a) + TextOf(b)
    decreases |a|
  {
    if a == [] {
      assert a + b == b;
    } else {
      var h := DeltaText(a[0]);
      TextOfAppend(a[1..], b);
      assert (a + b)[1..] == a[1..] + b;
      assert TextOf(a + b) == h + (TextOf(a[1..]) + TextOf(b));
      assert TextOf(a) == h + TextOf(a[1..]);
    }
  }

  lemma {:induction false} TextOfDeltas(chunks: seq<string>)
    ensures TextOf(Deltas(chunks)) == Concat(chunks)
    decreases |chunks|
  {
    if chunks != [] {
      TextOfDeltas(chunks[1..]);
      assert Deltas(chunks)[1..] == Deltas(chunks[1..]);
    }
  }

  /**
    Whatever the content, the deltas of the answer put together give it
    back. A non-empty content is yielded as deltas of at most 500
    characters, none empty, then the sentinel; an empty one as the WARNING
    and the error event.
  */
  lemma ContentAnswerText(content: string)
    ensures TextOf(ContentAnswer(content)) == content
    ensures content == "" ==> ContentAnswer(content) == [Reasoning(WARNING, NoContentMessage, None), ErrorEvent(NoContentError)]
    ensures content != "" ==>
              var a := ContentAnswer(content);
              && |a| == |Slices(content)| + 1 && a[|a| - 1] == Sentinel
              && forall k :: 0 <= k < |a| - 1 ==> a[k].Delta? && a[k].delta.JStr? && 0 < |a[k].delta.s| <= ChunkSize
  {
    if content != "" {
      SlicesCover(content);
      TextOfDeltas(Slices(content));
      TextOfAppend(Deltas(Slices(content)), [Sentinel]);
      assert TextOf([Sentinel]) == "" + TextOf([]);
    } else {
      var a := ContentAnswer(content);
      assert TextOf(a) == "" + TextOf(a[1..]);
      assert TextOf(a[1..]) == "" + TextOf(a[1..][1..]);
    }
  }

  /** The status in front of the content carries no text: the client reads exactly the content. */
  lemma DirectAnswerText(hadChoices: bool, content: string)
    ensures TextOf(DirectAnswer(hadChoices, content)) == content
  {
    var head: seq<Event> := if hadChoices then [Reasoning(INFO, DirectAnswerMessage, None)] else [];
    TextOfAppend(head, ContentAnswer(content));
    ContentAnswerText(content);
    if hadChoices {
      assert TextOf(head) == "" + TextOf([]);
    }
  }
}
