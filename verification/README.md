# Copilot for OpenBB: a verified model of its core

This project models the core of the OpenBB copilot examples in Dafny and proves properties of the model. It covers five source files:

- **Shared models** (`common/common/models.py`), module `Models`. This covers:
  - chart parameters and client artifacts with their validator;
  - the request's non-empty-messages check;
  - `parse_content`, which decodes a function call sent as a (possibly doubly) string-encoded JSON text;
  - the status-update and function-call server-sent events as `model_dump` lays them out;
  - the in-place `exclude_fields` validator.
- **The test helper** (`common/common/testing.py`), module `Testing`. This covers:
  - the reader that turns a server-sent event stream into `CopilotEvent`s;
  - `text` and `function_calls`;
  - the `CopilotResponse` cursor, a class whose `events` and `index` the checks `starts`, `then`, `with_`, `ends`, … read and move;
  - `has_any` and `has_all`;
  - `capture_stream_response`.
- **The code-interpreter worker** (`code_interpreter.py`), module `Interpreter`. This covers:
  - the capturing console, a class whose buffer collects what `runcode` prints while stdout and stderr point at it;
  - the per-snippet dispatch: statements, last line, `print(` special case and `SyntaxError` fall-backs;
  - the request loop over the input queue.
- **The code-interpreter copilot** (`code_interpreter_copilot/main.py`), module `CodeCopilot`. This covers:
  - `sanitize_message` (brace escaping);
  - `handle_context` (widget data loaded into named dataframes and a prompt);
  - `handle_function_call` (the worker's output classified into a text, table or chart artifact);
  - the role filter;
  - `llm_run_code`;
  - the ten-call `execution_loop`.
- **The DeepSeek copilot** (`simple_copilot_deepseek/main.py`), module `DeepSeek`. This covers:
  - `custom_run_agent` with its web-search query extraction;
  - the parts of `direct_response` that work on data: the message formatting filter, the reader of the streamed `data: ` lines and the re-chunking of a complete answer into 500-character deltas.

Everything foreign is a parameter of the model. This includes `ast.literal_eval` and `json.loads` (partial functions from text to a `Json` value), Python's `compile`/`exec`/`eval`, the LLM, the web search, pandas previews, `str` of a dict and `uuid4()`.

Loops in the source are methods with loop invariants, each proved equal to a recursive specification function:
- `ScanLines`, `CaptureLines`, `HandleContext`, `BuildChat`, `RunLoop`, `RunRounds`, `FormatMessages`, `ReadStream`, `AnswerDirectly` and `ServeLoop`;
- `ExcludeFields`, which works in place on an array.

The properties are proved as lemmas about those functions.

Python's integers and strings are unbounded here too. Python's negative indexing is written out (`Testing.PyIndex`).

## Model

| member | source | states |
|---|---|---|
| Models.ChartTypeName | common/common/models.py:16 | every chart type's literal reads back as that chart type |
| Models.ParseChartType | common/common/models.py:16 | a chart type is accepted exactly for "line", "bar" and "scatter" |
| Models.MakeChartParameters | common/common/models.py:15-18 | `ChartParameters` validates exactly when `chartType` is one of the three literals, `xKey` is a string and every `yKey` entry is a string; the result has the chart type that literal names, keeps `xKey` and the `yKey` entries in order |
| Models.CheckChartParams | common/common/models.py:172-178 | the validator passes, returning the artifact unchanged, exactly when chart parameters are present if and only if the type is "chart"; a chart without them and a non-chart with them fail with their two distinct messages |
| Models.ContentFromJson | common/common/models.py:169 | artifact content is accepted exactly when it is a string or a list of dicts; it keeps the text, or each dict as the row at its position |
| Models.NewArtifact | common/common/models.py:162-178 | building an artifact succeeds exactly when its content is valid and chart parameters are given exactly for a chart; the result is well-formed and carries the given type, name, description, uuid and parameters, with the validated content |
| Models.CheckMessagesNotEmpty | common/common/models.py:122-127 | the message list is accepted, unchanged, exactly when it is non-empty; otherwise the error is "messages list cannot be empty." |
| Models.FunctionCallFromJson | common/common/models.py:49-51 | a function call is built exactly from a dict whose `function` is a string and whose `input_arguments` is a dict, other keys ignored, and carries that name and those arguments |
| Models.FunctionCallToJson | common/common/models.py:49-51 | round trip: reading back a dumped function call gives the call |
| Models.ParseContent | common/common/models.py:62-76 | non-string content falls through to None; a string becomes a call exactly when decoding it (twice when the first pass gives a string) succeeds and the value builds a call, and then it is the call built from that value; every other string (undecodable, or decoding to a number, a list, a dict without the fields, or a string that fails the second pass) stays the text unchanged |
| Models.ParseContentRoundTrip | common/common/models.py:67-74 | a string holding the JSON of a call parses to that call |
| Models.ParseContentDoubleEncoded | common/common/models.py:70-74 | a string-encoded JSON string of a call is decoded twice and parses to the call |
| Models.ParseContentAtMostTwoPasses | common/common/models.py:70-76 | a call encoded three times is not decoded a third time: the content stays the original text |
| Models.MakeLlmMessage | common/common/models.py:54-76 | a message is built exactly when its content is a string, and keeps its role and a text or call content |
| Models.StatusFields | common/common/models.py:181-186 | the status data holds `eventType`, `message` and `group` in declaration order, then `details` and `artifacts` only when set (`exclude_none`); `group` is always "reasoning" |
| Models.StatusUpdateSse | common/common/models.py:203-205 | a status update is dumped as a `copilotStatusUpdate` event whose data are those fields |
| Models.FunctionCallSse | common/common/models.py:148-159 | a function call is dumped as a `copilotFunctionCall` event calling "get_widget_data" with its input arguments, and the original arguments only when set |
| Models.ChunkSse | code-interpreter-copilot/code_interpreter_copilot/main.py:66-70 | a message chunk is a `copilotMessageChunk` event whose `delta` is the chunk |
| Models.WithoutExcluded | common/common/models.py:195-199 | a details dict loses exactly the keys whose lower-cased form is excluded, and keeps every other value |
| Models.ExcludedNothing | common/common/models.py:193 | with the empty exclusion list every details dict is left as it was |
| Models.ExcludeFields | common/common/models.py:188-200 | each details dict in the array is replaced, in place, by itself without the excluded keys |
| Testing.EventTypeName | common/common/testing.py:24-47 | a recorded event is named `copilotFunctionCall`, `copilotStatusUpdate` or `copilotMessage` |
| Testing.KindOfNames | common/common/testing.py:24-36 | an event type is read as chunk, call or status exactly when it is the matching one of the three names |
| Testing.TagsExclusive | common/common/testing.py:21-24 | no line is both an `event:` line and a `data:` line |
| Testing.ReadLine | common/common/testing.py:21-26 | a line is an event line exactly when it starts with `event:` and a data line exactly when it starts with `data:`, with the field after the tag up to its next occurrence, stripped |
| Testing.Lines | common/common/testing.py:20 | the stream has one line per piece of its split on "\n", and at least one |
| Testing.ChunkDelta | common/common/testing.py:26-28 | a chunk's payload is read exactly when it evaluates to a dict whose `delta` is a string, and gives that string |
| Testing.EventContent | common/common/testing.py:32-41 | an event's payload is accepted exactly when it evaluates to a string or a dict (`content: str \| dict`) |
| Testing.ScanLines | common/common/testing.py:20-42 | the loop over the lines computes the left-to-right scan of all of them, stopping at the first line that raises |
| Testing.ParseEventStream | common/common/testing.py:17-49 | parsing a stream gives the events of its specification, or the error the reading raises |
| Testing.ScanMeaning | common/common/testing.py:20-42 | after any number of lines the scan holds the current event type, the in-order concatenation of the chunk deltas, and one event per call or status data line, in order |
| Testing.ScanSucceeds | common/common/testing.py:21-41 | the scan succeeds exactly when the first line is an `event:` line and every data line under a known type decodes; otherwise, when the first line is no event line, the event type is unbound |
| Testing.LinesEventsKinds | common/common/testing.py:29-42 | data lines never give a `copilotMessage` event |
| Testing.ParseEventsMeaning | common/common/testing.py:17-49 | a stream fails for an unbound event type exactly when it does not start with `event:`; a parsed stream's events are the call and status data lines in order, followed by one `copilotMessage` holding the concatenated deltas exactly when they are non-empty, which is the only message event |
| Testing.FunctionCallsFilter | common/common/testing.py:59-63 | `function_calls` holds exactly the response's function-call events |
| Testing.ParsedTextAndCalls | common/common/testing.py:51-63 | on a parsed stream `text` is the concatenation of the chunk deltas and `function_calls` are the function-call data lines, in order |
| Testing.HasAllAsWrittenRejectsOwnEvent | common/common/testing.py:139-146 | a response with two different events fails `has_all` as written for a list holding only its own first event |
| Testing.HasAll | common/common/testing.py:139-146 | the intended `has_all` holds exactly when every expected event occurs in the response |
| Testing.HasAllFunctionCalls | common/common/testing.py:139-146 | every response has all of its own function calls |
| Testing.AsWrittenImpliesHasAll | common/common/testing.py:139-146 | on a non-empty response, passing `has_all` as written implies passing the intended one |
| Testing.PyIndex | common/common/testing.py:86-126 | indexing the events follows Python: non-negative indices from the front, negative ones from the back, an IndexError outside |
| Testing.CheckAt | common/common/testing.py:86-126 | the event-type assertion at an index passes exactly when the index is valid and the type matches (or differs, for the `_not` checks), and raises IndexError exactly when the index is out of range |
| Testing.CheckEquals | common/common/testing.py:76-84 | a text expectation passes exactly when it occurs in the text of the content; checking content never raises IndexError, and raises TypeError only for a dict expectation on a text content |
| Testing.CheckItems | common/common/testing.py:80-83 | checking a dict expectation never raises IndexError, and raises TypeError only on a text content |
| Testing.CheckItemsMeaning | common/common/testing.py:80-83 | on a dict content a dict expectation passes exactly when every item names a key with an equal value, and never raises TypeError; on a text content only the empty dict passes, and any other raises TypeError exactly when its first key occurs in the text |
| Testing.ContentCheckAt | common/common/testing.py:91-93 | the content check at the cursor raises IndexError exactly when the cursor is out of range, and TypeError only for a dict expectation on a text content |
| Testing.AbsentAt | common/common/testing.py:105-107 | the `not in` check raises IndexError exactly when the cursor is out of range, and never TypeError |
| Testing.WithNotNegatesWith | common/common/testing.py:91-107 | on an existing event exactly one of `with_(s)` and `with_not(s)` passes |
| Testing.AnyMatch | common/common/testing.py:128-137 | the generator of `has_any` holds exactly when some event has the given type and the fragment in the text of its content |
| Testing.CursorChecksImplyHasAny | common/common/testing.py:128-137 | an event that passes `then(t)` and `with_(s)` at any cursor position makes `has_any(t, s)` pass |
| Testing.CopilotResponse.FromEvents | common/common/testing.py:11-15 | a new response holds the stream and its events, with the cursor at 0 |
| Testing.CopilotResponse.Create | common/common/testing.py:11-15 | constructing a response succeeds exactly when its stream parses, holding the parsed events with the cursor at 0; otherwise it raises the parsing error |
| Testing.CopilotResponse.Next | common/common/testing.py:68-74 | `__next__` yields the event at the cursor and moves one on while the cursor is below the end (negative cursors from the back), stops at the end, and raises IndexError before the front |
| Testing.CopilotResponse.Drain | common/common/testing.py:65-74 | iterating from a cursor at or above 0 yields every event from it to the end once, in order; from a cursor of -k it yields the last k events and then all events again; below -len(events) (such as after `ends` on an empty response) it raises IndexError at once; the cursor ends at the end unless nothing was yielded |
| Testing.CopilotResponse.Starts | common/common/testing.py:86-89 | `starts` moves the cursor to 0 and checks that event's type |
| Testing.CopilotResponse.With | common/common/testing.py:91-93 | `with_` checks the current event's content and leaves the cursor where it is |
| Testing.CopilotResponse.Then | common/common/testing.py:95-98 | `then` moves the cursor one on and checks that event's type |
| Testing.CopilotResponse.And | common/common/testing.py:100-103 | `and_` is the same content check as `with_` |
| Testing.CopilotResponse.WithNot | common/common/testing.py:105-107 | `with_not` checks that the fragment is absent from the current event's content |
| Testing.CopilotResponse.ThenNot | common/common/testing.py:109-112 | `then_not` moves the cursor one on and checks that event is of another type |
| Testing.CopilotResponse.ThenIgnore | common/common/testing.py:114-116 | `then_ignore` moves the cursor one on without a check |
| Testing.CopilotResponse.Ends | common/common/testing.py:118-121 | `ends` moves the cursor to the last event and checks its type |
| Testing.CopilotResponse.EndsNot | common/common/testing.py:123-126 | `ends_not` moves the cursor to the last event and checks it is of another type |
| Testing.CopilotResponse.HasAny | common/common/testing.py:128-137 | `has_any` passes exactly when some event has the type and the fragment in its content, and otherwise fails its assertion |
| Testing.CaptureLines | common/common/testing.py:155-166 | the capture loop computes the left-to-right capture scan of the lines |
| Testing.CaptureStreamResponse | common/common/testing.py:149-167 | `capture_stream_response` returns the specified name and text, or the error reading raises |
| Testing.CaptureScanAgrees | common/common/testing.py:155-166 | wherever the full reader succeeds, the capture scan succeeds with the same deltas and event type, named `copilotMessageChunk` exactly when a chunk data line was read |
| Testing.CaptureMatchesText | common/common/testing.py:149-167 | for a stream without function calls that parses, `capture_stream_response` returns exactly `text`, named `copilotMessageChunk` exactly when a chunk data line was read |
| Interpreter.CapturingConsole.constructor | code-interpreter-copilot/code_interpreter_copilot/code_interpreter.py:9-11 | a new console has an empty buffer, has run nothing, and leaves stdout and stderr the process's own |
| Interpreter.CapturingConsole.WriteTo | code-interpreter-copilot/code_interpreter_copilot/code_interpreter.py:16-17 | a write lands exactly where the stream points, and nowhere else |
| Interpreter.CapturingConsole.RunCode | code-interpreter-copilot/code_interpreter_copilot/code_interpreter.py:13-23 | `runcode` appends what the code prints and any traceback to the buffer, records the code, restores stdout and stderr whatever happened, and reports SystemExit |
| Interpreter.CapturingConsole.Eval | code-interpreter-copilot/code_interpreter_copilot/code_interpreter.py:82 | `eval` outside `runcode` records the code, and what it prints goes to the process's stdout, not the buffer |
| Interpreter.CapturingConsole.GetOutput | code-interpreter-copilot/code_interpreter_copilot/code_interpreter.py:25-29 | `get_output` returns the buffer without trailing newlines and empties it |
| Interpreter.Serve | code-interpreter-copilot/code_interpreter_copilot/code_interpreter.py:70-112 | serving a snippet changes the console and answers exactly as the specified dispatch does, and leaves stdout and stderr the process's own |
| Interpreter.RunAndAnswer | code-interpreter-copilot/code_interpreter_copilot/code_interpreter.py:94-96 | a statement is run through `runcode` and answered with the captured output |
| Interpreter.EvaluateAndAnswer | code-interpreter-copilot/code_interpreter_copilot/code_interpreter.py:98-101 | an expression is evaluated, a value other than None is printed to the buffer, and the buffer is the answer |
| Interpreter.AnswerEmptiesBuffer | code-interpreter-copilot/code_interpreter_copilot/code_interpreter.py:25-29 | answering empties the buffer, so a second answer is empty, and the answer is a prefix of what the buffer held |
| Interpreter.StatementsNotEmpty | code-interpreter-copilot/code_interpreter_copilot/code_interpreter.py:71-75 | for a snippet of several lines the statement block is never empty (its `if stmt_code:` always holds) |
| Interpreter.MultiLineOrder | code-interpreter-copilot/code_interpreter_copilot/code_interpreter.py:72-87 | a snippet of several lines runs its statement block first, then evaluates its last line if that compiles as an expression, else runs it as a statement if that compiles, else runs nothing more |
| Interpreter.PrintLineIsRun | code-interpreter-copilot/code_interpreter_copilot/code_interpreter.py:94-96 | a single line containing `print(` that compiles is run as a statement |
| Interpreter.OtherLineIsEvaluated | code-interpreter-copilot/code_interpreter_copilot/code_interpreter.py:97-107 | any other single line is evaluated when it compiles as an expression, and runs nothing otherwise |
| Interpreter.FailureKeepsBuffer | code-interpreter-copilot/code_interpreter_copilot/code_interpreter.py:111-112 | a failed snippet leaves the buffer as its run left it, so that output is part of the next answer |
| Interpreter.TrailingPrintIsLost | code-interpreter-copilot/code_interpreter_copilot/code_interpreter.py:80-84 | in a snippet of several lines, a last line `print(x)` is evaluated: its output goes to the process's stdout, and the answer holds only the buffer |
| Interpreter.ReplWorker | code-interpreter-copilot/code_interpreter_copilot/code_interpreter.py:32-112 | the worker runs the helper code, then answers the queued snippets as specified |
| Interpreter.ServeLoop | code-interpreter-copilot/code_interpreter_copilot/code_interpreter.py:66-112 | the `while True` loop answers the queued snippets in order until it reads None, the queue runs dry or a snippet exits |
| Interpreter.OneAnswerPerRequest | code-interpreter-copilot/code_interpreter_copilot/code_interpreter.py:66-112 | the worker puts exactly one answer per snippet before the first None, all of them when it stops or waits, and fewer when a snippet exits |
| Interpreter.NothingReadAfterNone | code-interpreter-copilot/code_interpreter_copilot/code_interpreter.py:67-69 | nothing after the first None is read |
| Interpreter.Respond | code-interpreter-copilot/code_interpreter_copilot/code_interpreter.py:70-112 | serving a snippet never forgets earlier code: the console's history only grows |
| Interpreter.ServeAll | code-interpreter-copilot/code_interpreter_copilot/code_interpreter.py:66-112 | the loop answers only requests, never the None, and never more than it was sent |
| Interpreter.FirstNoneIsFirst | code-interpreter-copilot/code_interpreter_copilot/code_interpreter.py:66-69 | the position the loop stops at holds the first None: every entry before it is a request |
| Interpreter.Worker | code-interpreter-copilot/code_interpreter_copilot/code_interpreter.py:32-112 | `repl_worker` stops at the first None having answered exactly the requests before it, and waits only once it answered all of them |
| CodeCopilot.EscapeIsSubstitution | code-interpreter-copilot/code_interpreter_copilot/main.py:61-62 | the left-to-right scan replaces a brace by two exactly where the brace is lone (neither preceded nor followed by the same brace), as the regular expression does |
| CodeCopilot.NoLoneMeans | code-interpreter-copilot/code_interpreter_copilot/main.py:61-62 | the scan's "nothing to replace" holds exactly when no position holds a lone brace |
| CodeCopilot.EscapeLeavesNoLone | code-interpreter-copilot/code_interpreter_copilot/main.py:61-62 | after one substitution no brace of that kind is lone |
| CodeCopilot.EscapeKeepsOtherNoLone | code-interpreter-copilot/code_interpreter_copilot/main.py:61-62 | escaping one brace does not make the other kind lone |
| CodeCopilot.EscapeFixpoint | code-interpreter-copilot/code_interpreter_copilot/main.py:61-62 | a substitution leaves a text unchanged exactly when it has no lone brace of that kind |
| CodeCopilot.SanitizeLeavesNoLoneBrace | code-interpreter-copilot/code_interpreter_copilot/main.py:59-63 | a sanitized message has no lone `{` and no lone `}` |
| CodeCopilot.SanitizeIdempotent | code-interpreter-copilot/code_interpreter_copilot/main.py:59-63 | sanitizing twice is sanitizing once |
| CodeCopilot.SanitizeUnchanged | code-interpreter-copilot/code_interpreter_copilot/main.py:59-63 | a message is left as it is exactly when it has no lone brace |
| CodeCopilot.EscapeGrows | code-interpreter-copilot/code_interpreter_copilot/main.py:61-62 | a substitution either changes nothing or makes the text longer |
| CodeCopilot.EscapeKeepsText | code-interpreter-copilot/code_interpreter_copilot/main.py:61-62 | a substitution changes nothing but braces |
| CodeCopilot.SanitizeKeepsText | code-interpreter-copilot/code_interpreter_copilot/main.py:59-63 | with the braces left out, the sanitized message is the message |
| CodeCopilot.Escape | code-interpreter-copilot/code_interpreter_copilot/main.py:59-63 | one `re.sub` pass of `sanitize_message` (`Sanitize` is the `{` pass, then the `}` pass) never shortens the text and keeps its first character; the `Escape*` and `Sanitize*` rows state what it replaces |
| CodeCopilot.CleanNameAsWritten | code-interpreter-copilot/code_interpreter_copilot/main.py:125-133 | a widget's variable is `df_` plus its name with spaces, dashes and dots replaced by `_`, plus `_` and the symbol when one is given, all lower-cased |
| CodeCopilot.SymbolNotCleaned | code-interpreter-copilot/code_interpreter_copilot/main.py:125-133 | for every name and metadata: a truthy `symbol` adds `_` and its text lower-cased with its dots kept, a missing or falsy one adds nothing, and every space, dash and dot of the name becomes `_` |
| CodeCopilot.CleanName | code-interpreter-copilot/code_interpreter_copilot/main.py:125-133 | a widget's variable starts with `df_` and is as long as `df_`, the name and the symbol suffix together: replacing and lower-casing keep every character's place |
| CodeCopilot.Render | code-interpreter-copilot/code_interpreter_copilot/main.py:136-142 | every widget's section of the prompt ends with `---` and a blank line |
| CodeCopilot.PromptTextEnds | code-interpreter-copilot/code_interpreter_copilot/main.py:136-142 | a prompt with sections ends with a section's end marker |
| CodeCopilot.HandleContext | code-interpreter-copilot/code_interpreter_copilot/main.py:119-146 | the loop over the widgets computes the specified context, or fails when a widget's data do not load |
| CodeCopilot.LoadItemsSucceeds | code-interpreter-copilot/code_interpreter_copilot/main.py:123-124 | loading succeeds exactly when every widget's data make a dataframe |
| CodeCopilot.LoadedKeys | code-interpreter-copilot/code_interpreter_copilot/main.py:125-134 | the loaded variables are exactly the widgets' cleaned names |
| CodeCopilot.LoadedFrames | code-interpreter-copilot/code_interpreter_copilot/main.py:124-134 | the last widget with a given cleaned name owns that variable's data and preview |
| CodeCopilot.PromptSections | code-interpreter-copilot/code_interpreter_copilot/main.py:136-142 | the prompt has one section per widget, in order, with its name, variable, description, metadata and preview |
| CodeCopilot.NoItemsLoadNothing | code-interpreter-copilot/code_interpreter_copilot/main.py:119-146 | a text context or an empty widget list gives an empty prompt and no dataframes |
| CodeCopilot.NoContextIsUnbound | code-interpreter-copilot/code_interpreter_copilot/main.py:162-163 | as written, a request with no context, an empty text or an empty list leaves `handled_context` unbound |
| CodeCopilot.BindContext | code-interpreter-copilot/code_interpreter_copilot/main.py:162-163 | corrected, the context is always bound: as written wherever that bound it, and to the empty context otherwise |
| CodeCopilot.FencedBlock | code-interpreter-copilot/code_interpreter_copilot/main.py:84-85 | a JSON block is cut out exactly when the output contains "```json"; it is the text after the first "```json" up to the first "```" after that (or to the end), and holds no "```" |
| CodeCopilot.ChartParamsOf | code-interpreter-copilot/code_interpreter_copilot/main.py:99-103 | chart parameters are built exactly when `chart_params` is a dict holding `chartType`, `xKey` and `yKey` that `ChartParameters` accepts with `yKey` wrapped in a list, and they are those parameters: `yKey` becomes the one-element list of that string |
| CodeCopilot.HandleFunctionCall | code-interpreter-copilot/code_interpreter_copilot/main.py:81-111 | output without a JSON block becomes a text artifact of that output; any built artifact is well-formed, described by the code and carries its uuid; output with a block never becomes a text artifact; a chart has one y column |
| CodeCopilot.BlockArtifact | code-interpreter-copilot/code_interpreter_copilot/main.py:84-104 | an artifact built from a JSON block is a table exactly when the block's `type` is "table" and a chart exactly when it is "chart", is named `table_artifact_` or `chart_artifact_` plus the id, and its content is the validated `json.loads` of the block's `content` |
| CodeCopilot.TableBlockBuilt | code-interpreter-copilot/code_interpreter_copilot/main.py:84-92 | conversely, a block of type "table" whose `content` decodes to valid rows always gives the table artifact named `table_artifact_` plus the id, described by the code, holding those rows and no chart parameters |
| CodeCopilot.ChartBlockBuilt | code-interpreter-copilot/code_interpreter_copilot/main.py:84-104 | conversely, a block of type "chart" whose `content` decodes to valid rows and whose `chart_params` are valid always gives the chart artifact named `chart_artifact_` plus the id, holding those rows and those parameters |
| CodeCopilot.OtherBlockTypeRejected | code-interpreter-copilot/code_interpreter_copilot/main.py:84-111 | a block whose type is neither "table" nor "chart" fails validation: the decoded dict is no valid artifact content |
| CodeCopilot.ChartYKeyWrapped | code-interpreter-copilot/code_interpreter_copilot/main.py:93-104 | a chart's single y column is the block's `yKey`, and its name is `chart_artifact_` plus the id |
| CodeCopilot.BuildChat | code-interpreter-copilot/code_interpreter_copilot/main.py:153-160 | the loop over the request messages builds the specified chat |
| CodeCopilot.Convert | code-interpreter-copilot/code_interpreter_copilot/main.py:154-160 | a `tool` message is dropped; an `ai` or `human` message becomes an assistant or a user message respectively, and raises exactly when its content is not text |
| CodeCopilot.ChatHistory | code-interpreter-copilot/code_interpreter_copilot/main.py:153-160 | a built chat holds one message per message that is not a `tool` message |
| CodeCopilot.ChatHistorySucceeds | code-interpreter-copilot/code_interpreter_copilot/main.py:153-160 | building the chat succeeds exactly when no `ai` or `human` message has content that is not text |
| CodeCopilot.ChatHistoryOrder | code-interpreter-copilot/code_interpreter_copilot/main.py:153-160 | the chat holds exactly the converted `ai` and `human` messages, in order, each at the count of kept messages before it |
| CodeCopilot.ConvertEscapes | code-interpreter-copilot/code_interpreter_copilot/main.py:155-160 | a kept message's text has no lone brace and, braces aside, is the original text |
| CodeCopilot.LlmRunCodeAnswers | code-interpreter-copilot/code_interpreter_copilot/main.py:165-184 | the host gets an answer exactly when the worker reached the shutdown signal, and it is the worker's only answer |
| CodeCopilot.LlmRunCode | code-interpreter-copilot/code_interpreter_copilot/main.py:165-184 | an answer comes only from a worker that reached the shutdown signal |
| CodeCopilot.TakeTurn | code-interpreter-copilot/code_interpreter_copilot/main.py:192-232 | one round of `execution_loop`: a round that goes on yields "Running code" and then "Completed code execution" with a well-formed artifact for that code, and appends the call and the artifact's content; a round that stops streams text or fails after announcing the code |
| CodeCopilot.Rounds | code-interpreter-copilot/code_interpreter_copilot/main.py:186-232 | from any call on, the loop makes at least one more LLM call while under `MAX_CALLS`, and never more than the calls left |
| CodeCopilot.Loop | code-interpreter-copilot/code_interpreter_copilot/main.py:186-232 | `execution_loop` calls the LLM at least once and at most ten times, whatever the LLM answers |
| CodeCopilot.RunLoop | code-interpreter-copilot/code_interpreter_copilot/main.py:186-232 | the `while count < MAX_CALLS` loop computes the specified run: events, chat, ending and number of calls |
| CodeCopilot.ExecutionLoop | code-interpreter-copilot/code_interpreter_copilot/main.py:186-232 | `execution_loop` yields the events of the specified run of its rounds |
| CodeCopilot.RoundsCalls | code-interpreter-copilot/code_interpreter_copilot/main.py:187-190 | the loop calls the LLM at most ten times, exactly ten times when every round ran code, at least once otherwise, and never fails for want of context once it is bound |
| CodeCopilot.RoundsTranscript | code-interpreter-copilot/code_interpreter_copilot/main.py:202-228 | every round that ran code yielded its two statuses and appended the call and its result to the chat, in order |
| CodeCopilot.BudgetSpentRun | code-interpreter-copilot/code_interpreter_copilot/main.py:187-228 | a run that spends the whole budget yields twenty statuses and no text, and adds twenty messages to the chat |
| CodeCopilot.StreamedRun | code-interpreter-copilot/code_interpreter_copilot/main.py:229-232 | a run that ends with text yields the code rounds' statuses and then exactly the streamed chunks |
| CodeCopilot.EmittedSse | code-interpreter-copilot/code_interpreter_copilot/main.py:203-218 | a chunk is dumped as a message chunk with its delta; "Running code" carries `details`, "Completed code execution" carries `artifacts` |
| CodeCopilot.BoundLoopHasContext | code-interpreter-copilot/code_interpreter_copilot/main.py:186-199 | with its context bound, the loop never fails for want of it |
| CodeCopilot.QueryAlwaysHasContext | code-interpreter-copilot/code_interpreter_copilot/main.py:149-199 | corrected, no query stream fails for want of context |
| CodeCopilot.QueryAgreesWithContext | code-interpreter-copilot/code_interpreter_copilot/main.py:162-163 | wherever the request as written had its context bound, the corrected query answers the same |
| CodeCopilot.RequestWithoutContext | code-interpreter-copilot/code_interpreter_copilot/main.py:149-199 | corrected, a valid request without context runs the loop with an empty prompt and no dataframes |
| CodeCopilot.Respond | code-interpreter-copilot/code_interpreter_copilot/main.py:162-234 | the stream over a built chat is refused only when loading the context raised; with the context never bound it yields nothing and fails |
| CodeCopilot.RequestOutcome | code-interpreter-copilot/code_interpreter_copilot/main.py:149-234 | `query` (`QueryAsWritten` as written, `Query` corrected, both through this) rejects the request for an empty message list exactly when it is empty, for a message that is not text exactly when some `ai` or `human` message holds no text, and for the context exactly when the chat was built and loading raised |
| DeepSeek.FirstGivenIsFirst | 20-simple-copilot-deepseek-v3/simple_copilot_deepseek/main.py:122-147 | the query is never None: it is the first candidate that is not None, and "Unable to determine query" exactly when all are None |
| DeepSeek.QueryOf | 20-simple-copilot-deepseek-v3/simple_copilot_deepseek/main.py:122-147 | a web search is never made with None as its query |
| DeepSeek.ExtractQuery | 20-simple-copilot-deepseek-v3/simple_copilot_deepseek/main.py:122-147 | the step-by-step assignments of `query` compute the specified query |
| DeepSeek.QueryPriority | 20-simple-copilot-deepseek-v3/simple_copilot_deepseek/main.py:124-147 | the query comes from `kwargs`, else from a dict `arguments`, else from `args[0]`, else is the fallback text, each only when the earlier ones gave None |
| DeepSeek.ResultText | 20-simple-copilot-deepseek-v3/simple_copilot_deepseek/main.py:166-186 | a function result holds the call's output, or, when it raised, its handler's prefix ("Error searching the web: " for a web search, "Error: " otherwise) and the exception's text |
| DeepSeek.TakeAgentTurn | 20-simple-copilot-deepseek-v3/simple_copilot_deepseek/main.py:103-203 | one round of `custom_run_agent`: a round that goes on appends the call and exactly one result for it and yields at most one INFO status; a round that stops appends a reply that is no call and yields terminal events |
| DeepSeek.AgentRounds | 20-simple-copilot-deepseek-v3/simple_copilot_deepseek/main.py:98-203 | from any submission under `max_completions` on, the loop submits at least once and never more than the submissions left |
| DeepSeek.CallRound | 20-simple-copilot-deepseek-v3/simple_copilot_deepseek/main.py:111-194 | a function-call round always appends the call and its result; a web search also yields exactly the status naming the query, any other call nothing |
| DeepSeek.StreamedRound | 20-simple-copilot-deepseek-v3/simple_copilot_deepseek/main.py:105-109 | a streamed reply forwards its chunks in order, then the empty delta, and ends the loop |
| DeepSeek.OtherRound | 20-simple-copilot-deepseek-v3/simple_copilot_deepseek/main.py:195-203 | any other reply ends the loop: a truthy content is forwarded once with the empty delta, anything else gives the "Unexpected response type from LLM" error |
| DeepSeek.RunRounds | 20-simple-copilot-deepseek-v3/simple_copilot_deepseek/main.py:98-203 | the `while completion_count < max_completions` loop computes the specified run: events, chat and number of submissions |
| DeepSeek.CustomRunAgent | 20-simple-copilot-deepseek-v3/simple_copilot_deepseek/main.py:98-203 | `custom_run_agent` yields the events of the specified run of its rounds |
| DeepSeek.AgentSubmits | 20-simple-copilot-deepseek-v3/simple_copilot_deepseek/main.py:99-103 | the loop submits at most `max_completions` times, all of them when no round ended it; a run that ended yields terminal events; everything before is INFO statuses |
| DeepSeek.AgentChat | 20-simple-copilot-deepseek-v3/simple_copilot_deepseek/main.py:160-194 | the chat grows by the call and exactly one result for every round that went on, and by the final reply, which is no call, when a round ended the run |
| DeepSeek.DefaultBudget | 20-simple-copilot-deepseek-v3/simple_copilot_deepseek/main.py:98-103 | with the default budget the agent submits at most ten times, and ends with terminal events exactly when it did not spend all ten on function calls |
| DeepSeek.FormatMessages | 20-simple-copilot-deepseek-v3/simple_copilot_deepseek/main.py:225-233 | the formatting loop computes the specified list of API messages |
| DeepSeek.FormattedOrder | 20-simple-copilot-deepseek-v3/simple_copilot_deepseek/main.py:225-233 | formatting keeps exactly the forwarded messages, in order, each at the count of forwarded messages before it |
| DeepSeek.Forward | 20-simple-copilot-deepseek-v3/simple_copilot_deepseek/main.py:227-233 | exactly system messages, user messages and assistant messages with text are forwarded, each with its own content |
| DeepSeek.ReadLineOutcome | 20-simple-copilot-deepseek-v3/simple_copilot_deepseek/main.py:410-431 | a line without "data: " is skipped; exactly the payload "[DONE]" finishes the reading; a line yields at most one event, the decode WARNING or a truthy delta |
| DeepSeek.ReadingStops | 20-simple-copilot-deepseek-v3/simple_copilot_deepseek/main.py:410-445 | once reading finished or raised, later lines change nothing |
| DeepSeek.ReadStream | 20-simple-copilot-deepseek-v3/simple_copilot_deepseek/main.py:410-445 | the loop over the streamed lines, with its `continue`, `break` and handler, yields the specified events |
| DeepSeek.StreamLines | 20-simple-copilot-deepseek-v3/simple_copilot_deepseek/main.py:410-445 | the streaming part of `direct_response` yields the specified answer of its lines |
| DeepSeek.ReadFromEvents | 20-simple-copilot-deepseek-v3/simple_copilot_deepseek/main.py:418-431 | everything the lines yield is a truthy delta or the decode WARNING |
| DeepSeek.DoneEndsReading | 20-simple-copilot-deepseek-v3/simple_copilot_deepseek/main.py:415-416 | no line after a "[DONE]" line is read |
| DeepSeek.UndecodableLineWarns | 20-simple-copilot-deepseek-v3/simple_copilot_deepseek/main.py:424-431 | a data line that is not JSON adds exactly the WARNING, and reading goes on |
| DeepSeek.ContentForwarded | 20-simple-copilot-deepseek-v3/simple_copilot_deepseek/main.py:418-423 | a data line whose chunk carries a truthy content, read while reading is open, forwards exactly that content as one delta, and reading goes on |
| DeepSeek.LineStops | 20-simple-copilot-deepseek-v3/simple_copilot_deepseek/main.py:410-431 | a line ends the reading exactly when it is "[DONE]" or its content expression raises |
| DeepSeek.LineTextRead | 20-simple-copilot-deepseek-v3/simple_copilot_deepseek/main.py:410-431 | any line that does not end the reading is skipped or yields events whose text is the string content of its chunk |
| DeepSeek.ReadFromText | 20-simple-copilot-deepseek-v3/simple_copilot_deepseek/main.py:410-431 | while no line ended the reading, the text of the events read is the lines' texts put together |
| DeepSeek.OpenUntilStop | 20-simple-copilot-deepseek-v3/simple_copilot_deepseek/main.py:410-431 | up to the first line that ends it, the reading stays open and its events' text is the lines' texts put together |
| DeepSeek.ReadToStop | 20-simple-copilot-deepseek-v3/simple_copilot_deepseek/main.py:410-445 | when the reading is open after some lines and the next line ends it, the reading is closed and holds the events read so far: no later line is read |
| DeepSeek.StreamedText | 20-simple-copilot-deepseek-v3/simple_copilot_deepseek/main.py:410-445 | the text the client puts together from the streamed answer is the string content of the data lines before the first "[DONE]" or raising line, put together, and the reading ends early exactly when there is such a line |
| DeepSeek.StreamAnswerEnds | 20-simple-copilot-deepseek-v3/simple_copilot_deepseek/main.py:433-445 | when no line raised the answer ends with the empty delta, which is the only one in it; otherwise it ends with the error event |
| DeepSeek.SlicesCover | 20-simple-copilot-deepseek-v3/simple_copilot_deepseek/main.py:468-472 | the 500-character slices put back together give the content; each is non-empty and at most 500 long, all but the last exactly 500, and there are ceil(len/500) of them |
| DeepSeek.ContentAnswer | 20-simple-copilot-deepseek-v3/simple_copilot_deepseek/main.py:458-475 | an answer with content ends with the empty delta, and one without ends with the "No content received from model" error |
| DeepSeek.DirectAnswer | 20-simple-copilot-deepseek-v3/simple_copilot_deepseek/main.py:447-475 | the INFO status leads the answer exactly when there were `choices`, and the answer ends with the empty delta or, without content, with the error event |
| DeepSeek.AnswerDirectly | 20-simple-copilot-deepseek-v3/simple_copilot_deepseek/main.py:447-475 | the end of `direct_response`, with its chunking loop, yields the specified answer |
| DeepSeek.ContentAnswerText | 20-simple-copilot-deepseek-v3/simple_copilot_deepseek/main.py:458-475 | the client reads back exactly the content; a non-empty content comes as deltas of 1 to 500 characters and then the empty delta, an empty one as the WARNING and the error |
| DeepSeek.DirectAnswerText | 20-simple-copilot-deepseek-v3/simple_copilot_deepseek/main.py:447-475 | the status in front of the content carries no text: the client reads exactly the content |

## Left out

- The HTTP servers are not modelled: FastAPI routes, CORS, `copilots.json` and `EventSourceResponse` framing. Events are modelled as the values the generators yield.
- The JSON text of `model_dump` is not modelled: `json.dumps` and `model_dump_json`. Event data are ordered lists of fields, and `create_message_stream`'s encoding of a chunk is `Models.ChunkSse`.
- The oracles are parameters of the model, not models: `ast.literal_eval`, `json.loads`, `compile`/`exec`/`eval`, pandas (`DataFrame`, `head().to_json`), `str` of a dict, the LLM, `perplexity_web_search`, `agent.process_messages` and `uuid4()`.
- Floats are left out. JSON numbers, and the `float` values a status's `details` may hold, are integers here.
- `Text.Lower` folds ASCII letters only. Python's `str.lower` is full Unicode case folding.
- Multiprocessing is not modelled: `Process`, the queues and `join`. The worker is a function of its input queue, and the host reads its first answer.
- `reasoning_step` itself is not part of this model; it lives in common/agent.py. The DeepSeek events keep its arguments (kind, message, details).
- Exceptions raised by logging, or raised while the query is extracted from a function call (`getattr` on unusual objects), are not modelled.
- A non-string content of the final reply of `custom_run_agent` is shown with an oracle `str`.
- `direct_response`'s tool-call orchestration is not modelled. This covers:
  - the API-key check;
  - the non-streaming requests and `finish_reason` tests;
  - the follow-up request and the tool-call loop with its statuses (20-simple-copilot-deepseek-v3/simple_copilot_deepseek/main.py:235-409);
  - the outer handler (477-484).

  The model covers the message formatting filter, the final streamed reading with its handler, and the answer without tool calls.
- Interpreter.Respond: when `eval` of a compiled expression itself raises SyntaxError at run time, the source's `except SyntaxError` runs the line again (as a statement, or evaluated again). The model treats every exception of `eval` as a failed request.
- The helper code `return_structured`/`return_chart` is not modelled. Its text is a parameter the worker runs first, and its output is what the Python oracle makes of it.
- `SYSTEM_PROMPT` and the other prompt texts are not modelled. The LLM oracle sees the chat and the context prompt.
- DeepSeek.DirectAnswer: takes the content as a string. A `null` content, or one that is a number or a dict, makes the `content[:100]` in the log line raise TypeError (20-simple-copilot-deepseek-v3/simple_copilot_deepseek/main.py:451), which only the outer handler, not part of this model, catches.
- The `ast.literal_eval` oracle answers a `Json` value, so the tuples, sets and bytes that `literal_eval` can also produce are not represented.
- Testing.CheckEquals: `_check_equals`'s `ValueError` for an expectation that is neither a string nor a dict is ruled out by the expectation's type. Dict values are compared with the model's `Json` equality rather than Python's `==`, which also equates `1`, `1.0` and `True`.

## Findings

| source | as written | input that shows it | evidently intended | confidence | as-written member | corrected member |
|---|---|---|---|---|---|---|
| common/common/testing.py:139-146 | `all(...)` runs over every pair of an expected event and an actual event, so it holds only when each expected event equals every event of the response | a response with two different events `[a, b]`, checked with `has_all([a])` | every expected event occurs among the response's events | not executed | Testing.HasAllAsWrittenRejectsOwnEvent | Testing.HasAll |
| code-interpreter-copilot/code_interpreter_copilot/main.py:162-163 | `handled_context` is only bound under `if request.context:`, and the loop reads it on its first round | a request whose `context` is None, "" or [] | a request without context is served with an empty prompt and no dataframes | not executed | CodeCopilot.NoContextIsUnbound | CodeCopilot.BindContext |
