/**
  The request, artifact and server-sent-event records shared by the copilots
  (common/common/models.py): their validators, the tolerant decoding of
  message content, and the shape `model_dump` gives an event.
*/
module Models {
  import opened Wrappers
  import opened Json
  import opened Text

  datatype Role = Ai | Human | Tool

  // ---------------------------------------------------------------------------
  // Chart parameters

  datatype ChartType = Line | Bar | Scatter

  /** A chart's type is one of three literals; `yKey` is a list of column names. */
  datatype ChartParameters = ChartParameters(chartType: ChartType, xKey: string, yKey: seq<string>)

  function ChartTypeName(c: ChartType): (r: string)
    ensures ParseChartType(r) == Some(c)
  {
    match c
    case Line => "line"
    case Bar => "bar"
    case Scatter => "scatter"
  }

  /** Validation of the `chartType` literal. */
  function ParseChartType(s: string): (r: Option<ChartType>)
    ensures r.Some? <==> (s == "line" || s == "bar" || s == "scatter")
  {
    if s == "line" then Some(Line)
    else if s == "bar" then Some(Bar)
    else if s == "scatter" then Some(Scatter)
    else None
  }

  /** Building `ChartParameters` from decoded values; `None` is a validation error. */
  function MakeChartParameters(chartType: Json, xKey: Json, yKey: seq<Json>): (r: Option<ChartParameters>)
    ensures r.Some? <==> chartType.JStr? && ParseChartType(chartType.s).Some? && xKey.JStr?
                         && forall i :: 0 <= i < |yKey| ==> yKey[i].JStr?
    ensures r.Some? ==> r.value.chartType == ParseChartType(chartType.s).value
                        && r.value.xKey == xKey.s && |r.value.yKey| == |yKey|
                        && forall i :: 0 <= i < |yKey| ==> r.value.yKey[i] == yKey[i].s
  {
    if chartType.JStr? && ParseChartType(chartType.s).Some? && xKey.JStr?
       && forall i :: 0 <= i < |yKey| ==> yKey[i].JStr?
    then Some(ChartParameters(ParseChartType(chartType.s).value, xKey.s,
                              seq(|yKey|, i requires 0 <= i < |yKey| && yKey[i].JStr? => yKey[i].s)))
    else None
  }

  // ---------------------------------------------------------------------------
  // Client artifacts

  datatype ArtifactType = TextArtifact | TableArtifact | ChartArtifact

  /** `content: str | list[dict]` */
  datatype ArtifactContent = TextContent(text: string) | Records(rows: seq<map<string, Json>>)

  datatype ClientArtifact = ClientArtifact(
    kind: ArtifactType,
    name: string,
    description: string,
    uuid: string,
    content: ArtifactContent,
    chartParams: Option<ChartParameters>)

  /** The artifact invariant: chart parameters are present exactly on charts. */
  predicate WellFormed(a: ClientArtifact) {
    (a.kind == ChartArtifact) <==> a.chartParams.Some?
  }

  datatype ArtifactError = InvalidContent | ChartParamsRequired | ChartParamsOnlyForChart

  function ArtifactErrorMessage(e: ArtifactError): string {
    match e
    case InvalidContent => "Input should be a valid string or a valid list of dictionaries"
    case ChartParamsRequired => "chart_params is required for type 'chart'"
    case ChartParamsOnlyForChart => "chart_params is only allowed for type 'chart'"
  }

  /** The model validator: accepts exactly the well-formed artifacts, unchanged. */
  function CheckChartParams(a: ClientArtifact): (r: Result<ClientArtifact, ArtifactError>)
    ensures r.Success? <==> WellFormed(a)
    ensures r.Success? ==> r.value == a
    ensures r.Failure? && a.kind == ChartArtifact ==> r.error == ChartParamsRequired
    ensures r.Failure? && a.kind != ChartArtifact ==> r.error == ChartParamsOnlyForChart
  {
    if a.kind == ChartArtifact && a.chartParams.None? then Failure(ChartParamsRequired)
    else if a.kind != ChartArtifact && a.chartParams.Some? then Failure(ChartParamsOnlyForChart)
    else Success(a)
  }

  predicate IsRecord(j: Json) { j.JObj? }

  /** Field validation of `content` against `str | list[dict]`. */
  function ContentFromJson(j: Json): (r: Option<ArtifactContent>)
    ensures r.Some? <==> j.JStr? || (j.JArr? && forall i :: 0 <= i < |j.items| ==> IsRecord(j.items[i]))
    ensures r.Some? && j.JStr? ==> r.value == TextContent(j.s)
    ensures r.Some? && j.JArr? ==> r.value.Records? && |r.value.rows| == |j.items|
                                   && forall i :: 0 <= i < |j.items| ==> j.items[i] == JObj(r.value.rows[i])
  {
    match j
    case JStr(s) => Some(TextContent(s))
    case JArr(items) =>
      if forall i :: 0 <= i < |items| ==> IsRecord(items[i])
      then Some(Records(seq(|items|, i requires 0 <= i < |items| && IsRecord(items[i]) => items[i].fields)))
      else None
    case _ => None
  }

  /** `ClientArtifact(...)`: field validation of `content`, then the model validator. */
  function NewArtifact(kind: ArtifactType, name: string, description: string, uuid: string,
                       content: Json, chartParams: Option<ChartParameters>): (r: Result<ClientArtifact, ArtifactError>)
    ensures r.Success? ==> WellFormed(r.value) && r.value.kind == kind && r.value.chartParams == chartParams
    ensures r.Success? <==> ContentFromJson(content).Some? && ((kind == ChartArtifact) <==> chartParams.Some?)
    ensures r.Success? ==> r.value.name == name && r.value.description == description && r.value.uuid == uuid
                           && Some(r.value.content) == ContentFromJson(content)
  {
    match ContentFromJson(content)
    case None => Failure(InvalidContent)
    case Some(c) => CheckChartParams(ClientArtifact(kind, name, description, uuid, c, chartParams))
  }

  // ---------------------------------------------------------------------------
  // Query requests

  const EmptyMessagesError: string := "messages list cannot be empty."

  /** The `messages` validator: an empty list is rejected, any other passes unchanged. */
  function CheckMessagesNotEmpty<M>(messages: seq<M>): (r: Result<seq<M>, string>)
    ensures r.Success? <==> |messages| > 0
    ensures r.Success? ==> r.value == messages
    ensures r.Failure? ==> r.error == EmptyMessagesError
  {
    if messages == [] then Failure(EmptyMessagesError) else Success(messages)
  }

  // ---------------------------------------------------------------------------
  // Message content

  datatype LlmFunctionCall = LlmFunctionCall(functionName: string, inputArguments: map<string, Json>)

  /**
    `LlmFunctionCall(**value)`: the value must be a mapping (else TypeError)
    whose `function` is a string and whose `input_arguments` is a dict (else a
    validation error, a ValueError); other keys are ignored.
  */
  function FunctionCallFromJson(j: Json): (r: Option<LlmFunctionCall>)
    ensures r.Some? ==> j.JObj? && "function" in j.fields && j.fields["function"] == JStr(r.value.functionName)
    ensures r.Some? ==> "input_arguments" in j.fields && j.fields["input_arguments"] == JObj(r.value.inputArguments)
    ensures r.Some? <==> j.JObj? && "function" in j.fields && j.fields["function"].JStr?
                         && "input_arguments" in j.fields && j.fields["input_arguments"].JObj?
  {
    if j.JObj? && "function" in j.fields && j.fields["function"].JStr?
       && "input_arguments" in j.fields && j.fields["input_arguments"].JObj?
    then Some(LlmFunctionCall(j.fields["function"].s, j.fields["input_arguments"].fields))
    else None
  }

  /** The JSON object a function call is serialised to; decoding it gives the call back. */
  function FunctionCallToJson(fc: LlmFunctionCall): (r: Json)
    ensures FunctionCallFromJson(r) == Some(fc)
  {
    JObj(map["function" := JStr(fc.functionName), "input_arguments" := JObj(fc.inputArguments)])
  }

  /** What `parse_content` hands on: a call, the raw text, or Python's `None`. */
  datatype MessageContent = CallContent(call: LlmFunctionCall) | PlainText(text: string) | NoContent

  /** `json.loads(v)`, followed by a second `json.loads` when the first gave a string. */
  function Decoded(s: string, decode: string -> Option<Json>): Option<Json> {
    match decode(s)
    case None => None
    case Some(first) => if first.JStr? then decode(first.s) else Some(first)
  }

  /**
    `LlmMessage.parse_content`. A string is decoded once, and a second time
    when the first decode produced a string; if decoding fails or the value
    does not build a function call the string itself is returned. A value that
    is not a string falls off the end of the validator and yields `None`.
  */
  function ParseContent(v: Json, decode: string -> Option<Json>): (r: MessageContent)
    ensures r.NoContent? <==> !v.JStr?
    ensures r.PlainText? ==> r.text == v.s
    ensures v.JStr? && decode(v.s).None? ==> r == PlainText(v.s)
    ensures r.CallContent? ==> v.JStr? && decode(v.s).Some?
    ensures v.JStr? ==> (r.CallContent? <==> Decoded(v.s, decode).Some? && FunctionCallFromJson(Decoded(v.s, decode).value).Some?)
    ensures r.CallContent? ==> FunctionCallFromJson(Decoded(v.s, decode).value) == Some(r.call)
  {
    if !v.JStr? then NoContent
    else match decode(v.s)
      case None => PlainText(v.s)
      case Some(first) =>
        var second := if first.JStr? then decode(first.s) else Some(first);
        match second
        case None => PlainText(v.s)
        case Some(value) =>
          match FunctionCallFromJson(value)
          case Some(fc) => CallContent(fc)
          case None => PlainText(v.s)
  }

  /** A function call sent back as its JSON text decodes to the same call. */
  lemma ParseContentRoundTrip(fc: LlmFunctionCall, text: string, decode: string -> Option<Json>)
    requires decode(text) == Some(FunctionCallToJson(fc))
    ensures ParseContent(JStr(text), decode) == CallContent(fc)
  {
  }

  /** So does a call whose JSON text was itself encoded as a JSON string. */
  lemma ParseContentDoubleEncoded(fc: LlmFunctionCall, text: string, inner: string, decode: string -> Option<Json>)
    requires decode(text) == Some(JStr(inner))
    requires decode(inner) == Some(FunctionCallToJson(fc))
    ensures ParseContent(JStr(text), decode) == CallContent(fc)
  {
  }

  /** There is no third decode: a string that is still a string after two passes stays raw text. */
  lemma ParseContentAtMostTwoPasses(text: string, inner: string, innermost: string, decode: string -> Option<Json>)
    requires decode(text) == Some(JStr(inner))
    requires decode(inner) == Some(JStr(innermost))
    ensures ParseContent(JStr(text), decode) == PlainText(text)
  {
  }

  datatype LlmMessage = LlmMessage(role: Role, content: MessageContent)

  /** Building an `LlmMessage`: a content the validator turns into `None` fails validation. */
  function MakeLlmMessage(role: Role, v: Json, decode: string -> Option<Json>): (r: Option<LlmMessage>)
    ensures r.Some? <==> v.JStr?
    ensures r.Some? ==> r.value.role == role && !r.value.content.NoContent?
  {
    var c := ParseContent(v, decode);
    if c.NoContent? then None else Some(LlmMessage(role, c))
  }

  // ---------------------------------------------------------------------------
  // Server-sent events

  datatype StatusKind = INFO | WARNING | ERROR

  function StatusKindName(k: StatusKind): string {
    match k
    case INFO => "INFO"
    case WARNING => "WARNING"
    case ERROR => "ERROR"
  }

  /** A value inside a status update's `details` dicts (`str | int | float | None`, floats left out). */
  datatype Scalar = SStr(s: string) | SInt(i: int) | SNone

  type Detail = map<string, Scalar>

  /**
    `StatusUpdateSSEData`. Its `group` can only be the literal "reasoning",
    so it is not stored: every dump writes it.
  */
  datatype StatusUpdateData = StatusUpdateData(
    eventType: StatusKind,
    message: string,
    details: Option<seq<Detail>>,
    artifacts: Option<seq<ClientArtifact>>)

  const ReasoningGroup: string := "reasoning"

  /** An event as `model_dump` returns it: exactly `event` and the fields of `data`, in order. */
  datatype SseEvent = SseEvent(event: string, data: seq<(string, Json)>)

  function Keys(fields: seq<(string, Json)>): (r: seq<string>)
    ensures |r| == |fields|
    ensures forall i :: 0 <= i < |fields| ==> r[i] == fields[i].0
  {
    seq(|fields|, i requires 0 <= i < |fields| => fields[i].0)
  }

  /** The value under `key` in a dumped object. */
  function Lookup(fields: seq<(string, Json)>, key: string): Option<Json> {
    if fields == [] then None
    else if fields[0].0 == key then Some(fields[0].1)
    else Lookup(fields[1..], key)
  }

  /** A key found in a prefix of the fields keeps its value whatever follows. */
  lemma {:induction false} LookupAppend(a: seq<(string, Json)>, b: seq<(string, Json)>, key: string)
    requires Lookup(a, key).Some?
    ensures Lookup(a + b, key) == Lookup(a, key)
    decreases |a|
  {
    if a[0].0 != key {
      assert (a + b)[1..] == a[1..] + b;
      LookupAppend(a[1..], b, key);
    }
  }

  function ScalarJson(s: Scalar): Json {
    match s
    case SStr(t) => JStr(t)
    case SInt(i) => JNum(i)
    case SNone => JNull
  }

  function DetailJson(d: Detail): Json {
    JObj(map k | k in d :: ScalarJson(d[k]))
  }

  function ContentJson(c: ArtifactContent): Json {
    match c
    case TextContent(t) => JStr(t)
    case Records(rows) => JArr(seq(|rows|, i requires 0 <= i < |rows| => JObj(rows[i])))
  }

  function ArtifactTypeName(k: ArtifactType): string {
    match k
    case TextArtifact => "text"
    case TableArtifact => "table"
    case ChartArtifact => "chart"
  }

  function ChartParamsJson(p: ChartParameters): Json {
    JObj(map["chartType" := JStr(ChartTypeName(p.chartType)), "xKey" := JStr(p.xKey),
             "yKey" := JArr(seq(|p.yKey|, i requires 0 <= i < |p.yKey| => JStr(p.yKey[i])))])
  }

  /** An artifact serialised with `exclude_none`: `chart_params` appears only when present. */
  function ArtifactJson(a: ClientArtifact): Json {
    var fields := map["type" := JStr(ArtifactTypeName(a.kind)), "name" := JStr(a.name),
                      "description" := JStr(a.description), "uuid" := JStr(a.uuid),
                      "content" := ContentJson(a.content)];
    match a.chartParams
    case None => JObj(fields)
    case Some(p) => JObj(fields["chart_params" := ChartParamsJson(p)])
  }

  /** The fields of a status update's data with `exclude_none`, in declaration order. */
  function StatusFields(d: StatusUpdateData): (r: seq<(string, Json)>)
    ensures Keys(r) == ["eventType", "message", "group"]
                       + (if d.details.Some? then ["details"] else [])
                       + (if d.artifacts.Some? then ["artifacts"] else [])
    ensures Lookup(r, "group") == Some(JStr(ReasoningGroup))
    ensures Lookup(r, "message") == Some(JStr(d.message))
    ensures Lookup(r, "eventType") == Some(JStr(StatusKindName(d.eventType)))
  {
    var base := [("eventType", JStr(StatusKindName(d.eventType))), ("message", JStr(d.message)),
                 ("group", JStr(ReasoningGroup))];
    var detailsField := match d.details
      case None => []
      case Some(ds) => [("details", JArr(seq(|ds|, i requires 0 <= i < |ds| => DetailJson(ds[i]))))];
    var artifactsField := match d.artifacts
      case None => []
      case Some(arts) => [("artifacts", JArr(seq(|arts|, i requires 0 <= i < |arts| => ArtifactJson(arts[i]))))];
    assert Lookup(base[2..], "group") == Some(JStr(ReasoningGroup));
    assert Lookup(base[1..], "group") == Some(JStr(ReasoningGroup));
    LookupAppend(base, detailsField + artifactsField, "group");
    LookupAppend(base, detailsField + artifactsField, "message");
    LookupAppend(base, detailsField + artifactsField, "eventType");
    assert base + detailsField + artifactsField == base + (detailsField + artifactsField);
    base + detailsField + artifactsField
  }

  const StatusUpdateEvent: string := "copilotStatusUpdate"
  const FunctionCallEvent: string := "copilotFunctionCall"
  const MessageChunkEvent: string := "copilotMessageChunk"

  /** `StatusUpdateSSE(data=d).model_dump()` */
  function StatusUpdateSse(d: StatusUpdateData): (r: SseEvent)
    ensures r.event == StatusUpdateEvent
    ensures r.data == StatusFields(d)
  {
    SseEvent(StatusUpdateEvent, StatusFields(d))
  }

  /** `FunctionCallSSEData`, whose `function` can only be "get_widget_data". */
  datatype FunctionCallData = FunctionCallData(
    inputArguments: map<string, Json>,
    copilotFunctionCallArguments: Option<map<string, Json>>)

  /** `FunctionCallSSE(data=d).model_dump()` */
  function FunctionCallSse(d: FunctionCallData): (r: SseEvent)
    ensures r.event == FunctionCallEvent
    ensures Keys(r.data) == ["function", "input_arguments"]
                            + (if d.copilotFunctionCallArguments.Some? then ["copilot_function_call_arguments"] else [])
    ensures Lookup(r.data, "function") == Some(JStr("get_widget_data"))
  {
    var base := [("function", JStr("get_widget_data")), ("input_arguments", JObj(d.inputArguments))];
    var data := match d.copilotFunctionCallArguments
      case None => base
      case Some(args) => base + [("copilot_function_call_arguments", JObj(args))];
    SseEvent(FunctionCallEvent, data)
  }

  /** A message chunk event `{"delta": ...}` as the agent loops emit it. */
  function ChunkSse(delta: string): (r: SseEvent)
    ensures r.event == MessageChunkEvent && Lookup(r.data, "delta") == Some(JStr(delta))
  {
    SseEvent(MessageChunkEvent, [("delta", JStr(delta))])
  }

  // ---------------------------------------------------------------------------
  // exclude_fields

  /** The keys `exclude_fields` removes from every details dict: none. */
  const ExcludedDetailKeys: seq<string> := []

  function WithoutExcluded(d: Detail): (r: Detail)
    ensures r.Keys <= d.Keys
    ensures forall k :: k in d ==> (k in r <==> Lower(k) !in ExcludedDetailKeys)
    ensures forall k :: k in r ==> r[k] == d[k]
  {
    map k | k in d && Lower(k) !in ExcludedDetailKeys :: d[k]
  }

  /** With the empty exclusion list every details dict is left as it was. */
  lemma ExcludedNothing(d: Detail)
    ensures WithoutExcluded(d) == d
  {
    assert WithoutExcluded(d).Keys == d.Keys;
  }

  /** The `exclude_fields` validator: pops the excluded keys from each details dict, in place. */
  method ExcludeFields(details: array<Detail>)
    modifies details
    ensures forall i :: 0 <= i < details.Length ==> details[i] == WithoutExcluded(old(details[i]))
  {
    for i := 0 to details.Length
      invariant forall j :: 0 <= j < i ==> details[j] == WithoutExcluded(old(details[j]))
      invariant forall j :: i <= j < details.Length ==> details[j] == old(details[j])
    {
      var detail := details[i];
      ghost var original := detail;
      var keys := detail.Keys;
      while keys != {}
        invariant keys <= original.Keys
        invariant detail.Keys == set k | k in original && (k in keys || Lower(k) !in ExcludedDetailKeys)
        invariant forall k :: k in detail ==> detail[k] == original[k]
        decreases keys
      {
        var key :| key in keys;
        if Lower(key) in ExcludedDetailKeys {
          detail := detail - {key};
        }
        keys := keys - {key};
      }
      assert detail == WithoutExcluded(original);
      details[i] := detail;
    }
  }
}
