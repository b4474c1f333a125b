/**
  The event-stream reader the copilots' tests use (common/common/testing.py).

  A stream is split on "\n". An `event:` line sets the current event type; a
  `data:` line is read according to the current type: under
  `copilotMessageChunk` its `delta` is appended to one running message, under
  `copilotFunctionCall` and `copilotStatusUpdate` it becomes one event. The
  running message, when non-empty, becomes a final `copilotMessage` event.
  `ast.literal_eval` is foreign: it is a parameter, a partial function from a
  payload to a value.
*/
module Testing {
  import opened Wrappers
  import opened Json
  import opened Text

  const MessageChunk: string := "copilotMessageChunk"
  const FunctionCall: string := "copilotFunctionCall"
  const StatusUpdate: string := "copilotStatusUpdate"
  const Message: string := "copilotMessage"

  const EventTag: string := "event:"
  const DataTag: string := "data:"

  /** `CopilotEvent.content: str | dict` */
  datatype Content = StrContent(s: string) | DictContent(d: map<string, Json>)

  /** The three event types the reader produces. */
  datatype EventType = FunctionCallEvent | StatusUpdateEvent | MessageEvent

  function EventTypeName(t: EventType): (r: string)
    ensures r in {FunctionCall, StatusUpdate, Message}
  {
    match t
    case FunctionCallEvent => FunctionCall
    case StatusUpdateEvent => StatusUpdate
    case MessageEvent => Message
  }

  datatype CopilotEvent = CopilotEvent(eventType: EventType, content: Content)

  /** How the reader treats the data lines under a stream event type. */
  datatype Kind = ChunkKind | CallKind | StatusKind | OtherKind {
    /** Data lines under this kind become events. */
    predicate Recorded() { this == CallKind || this == StatusKind }

    /** The type of the events recorded under this kind. */
    function RecordedAs(): EventType
      requires Recorded()
    {
      if this == CallKind then FunctionCallEvent else StatusUpdateEvent
    }
  }

  /**
    `a == b` on text, written out one character at a time so that a comparison
    with a long constant stays a single step of reasoning until it is needed.
  */
  predicate SameText(a: string, b: string)
    decreases |a|
  {
    |a| == |b| && (a == [] || (a[0] == b[0] && SameText(a[1..], b[1..])))
  }

  lemma {:induction false} SameTextIsEquality(a: string, b: string)
    ensures SameText(a, b) <==> a == b
    decreases |a|
  {
    if |a| == |b| && a != [] {
      SameTextIsEquality(a[1..], b[1..]);
      if a[0] == b[0] && a[1..] == b[1..] {
        assert a == [a[0]] + a[1..] && b == [b[0]] + b[1..];
      }
    }
  }

  /** How the reader treats a stream event type: `event_type == "copilotMessageChunk"` and so on. */
  function KindOf(t: string): Kind {
    if SameText(t, MessageChunk) then ChunkKind
    else if SameText(t, FunctionCall) then CallKind
    else if SameText(t, StatusUpdate) then StatusKind
    else OtherKind
  }

  lemma KindOfNames(t: string)
    ensures KindOf(t) == ChunkKind <==> t == MessageChunk
    ensures KindOf(t) == CallKind <==> t == FunctionCall
    ensures KindOf(t) == StatusKind <==> t == StatusUpdate
  {
    SameTextIsEquality(t, MessageChunk);
    SameTextIsEquality(t, FunctionCall);
    SameTextIsEquality(t, StatusUpdate);
  }


  /** The exceptions reading a stream can raise. */
  datatype ParseError =
    | UnboundEventType          // a line is read before any `event:` line bound `event_type`
    | Undecodable(payload: string)   // `literal_eval` rejected the payload
    | NoDelta(payload: string)       // the value has no `["delta"]`
    | DeltaNotText(payload: string)  // `delta` is not a string, so `+=` fails
    | InvalidContent(payload: string) // the value is neither a str nor a dict
    | MissingLine               // `event_stream[1]` of a one-line stream

  type LiteralEval = string -> Option<Json>

  // ---------------------------------------------------------------------------
  // One line

  predicate IsEventLine(line: string) { StartsWith(line, EventTag) }

  predicate IsDataLine(line: string) { StartsWith(line, DataTag) }

  /** `line.split(tag)[1].strip()` for a line that starts with `tag`. */
  function Field(line: string, tag: string): (r: string)
    requires |tag| > 0 && StartsWith(line, tag)
    ensures r == Strip(UpTo(line[|tag|..], tag))
  {
    assert Contains(line, tag);
    Strip(SplitSecond(line, tag).value)
  }

  lemma TagsExclusive(line: string)
    ensures !(IsEventLine(line) && IsDataLine(line))
  {
    if IsEventLine(line) {
      assert line[0] == EventTag[0];
    }
  }

  /**
    What the reader sees in one line of the stream. The event type an `event:`
    line names is only ever compared with the three known types, so the line
    also carries that comparison's outcome.
  */
  datatype Line =
    | EventLine(name: string, kind: Kind)  // `event:` line, naming the new event type
    | DataLine(payload: string)   // `data:` line, with its payload
    | OtherLine

  function ReadLine(line: string): (r: Line)
    ensures r.EventLine? <==> IsEventLine(line)
    ensures r.DataLine? <==> IsDataLine(line)
    ensures r.EventLine? ==> r.name == Field(line, EventTag) && r.kind == KindOf(r.name)
    ensures r.DataLine? ==> r.payload == Field(line, DataTag)
  {
    TagsExclusive(line);
    if IsEventLine(line) then EventLine(Field(line, EventTag), KindOf(Field(line, EventTag)))
    else if IsDataLine(line) then DataLine(Field(line, DataTag))
    else OtherLine
  }

  /** The lines of a stream, `event_stream.split("\n")`, as the reader sees them. */
  function Lines(stream: string): (r: seq<Line>)
    ensures |r| == |Split(stream, '\n')| >= 1
    ensures forall i :: 0 <= i < |r| ==> r[i] == ReadLine(Split(stream, '\n')[i])
  {
    var raw := Split(stream, '\n');
    seq(|raw|, i requires 0 <= i < |raw| => ReadLine(raw[i]))
  }

  /** `literal_eval(payload)["delta"]`, which must be a string to be appended. */
  function ChunkDelta(payload: string, eval: LiteralEval): (r: Result<string, ParseError>)
    ensures r.Success? <==> eval(payload).Some? && eval(payload).value.JObj?
                            && "delta" in eval(payload).value.fields
                            && eval(payload).value.fields["delta"].JStr?
    ensures r.Success? ==> r.value == eval(payload).value.fields["delta"].s
  {
    match eval(payload)
    case None => Failure(Undecodable(payload))
    case Some(v) =>
      if !v.JObj? || "delta" !in v.fields then Failure(NoDelta(payload))
      else if !v.fields["delta"].JStr? then Failure(DeltaNotText(payload))
      else Success(v.fields["delta"].s)
  }

  /** `CopilotEvent(content=literal_eval(payload))`, valid for a str or a dict. */
  function EventContent(payload: string, eval: LiteralEval): (r: Result<Content, ParseError>)
    ensures r.Success? <==> eval(payload).Some? && (eval(payload).value.JStr? || eval(payload).value.JObj?)
  {
    match eval(payload)
    case None => Failure(Undecodable(payload))
    case Some(JStr(s)) => Success(StrContent(s))
    case Some(JObj(d)) => Success(DictContent(d))
    case Some(_) => Failure(InvalidContent(payload))
  }

  // ---------------------------------------------------------------------------
  // parse_event_stream as a left-to-right scan

  /** The loop's variables: the kind of the current `event_type` (unbound at first), the message so far, the events so far. */
  datatype ScanState = ScanState(eventType: Option<Kind>, captured: string, events: seq<CopilotEvent>)

  function Step(st: ScanState, line: Line, eval: LiteralEval): Result<ScanState, ParseError> {
    var ty := if line.EventLine? then Some(line.kind) else st.eventType;
    if ty.None? then Failure(UnboundEventType)
    else
      var st' := st.(eventType := ty);
      if !line.DataLine? then Success(st')
      else match ty.value
        case ChunkKind =>
          (match ChunkDelta(line.payload, eval)
           case Failure(e) => Failure(e)
           case Success(d) => Success(st'.(captured := st'.captured + d)))
        case OtherKind => Success(st')
        case _ =>
          (match EventContent(line.payload, eval)
           case Failure(e) => Failure(e)
           case Success(c) => Success(st'.(events := st'.events + [CopilotEvent(ty.value.RecordedAs(), c)])))
  }

  /** The state after the first `n` lines. */
  function Scan(lines: seq<Line>, n: nat, eval: LiteralEval): Result<ScanState, ParseError>
    requires n <= |lines|
  {
    if n == 0 then Success(ScanState(None, "", []))
    else match Scan(lines, n - 1, eval)
      case Failure(e) => Failure(e)
      case Success(st) => Step(st, lines[n - 1], eval)
  }

  /** What `CopilotResponse(stream).events` holds, or the exception its constructor raises. */
  function ParseEvents(stream: string, eval: LiteralEval): Result<seq<CopilotEvent>, ParseError> {
    ParseLines(Lines(stream), eval)
  }

  /** The events read from already split lines, or the exception that ends the scan. */
  function ParseLines(lines: seq<Line>, eval: LiteralEval): Result<seq<CopilotEvent>, ParseError> {
    match Scan(lines, |lines|, eval)
    case Failure(e) => Failure(e)
    case Success(st) => Success(Finish(st))
  }

  function Finish(st: ScanState): seq<CopilotEvent> {
    st.events + if st.captured != "" then [CopilotEvent(MessageEvent, StrContent(st.captured))] else []
  }

  /** An exception ends the scan: later lines are not read. */
  lemma {:induction false} ScanFailureStays(lines: seq<Line>, m: nat, n: nat, eval: LiteralEval)
    requires m <= n <= |lines|
    requires Scan(lines, m, eval).Failure?
    ensures Scan(lines, n, eval) == Scan(lines, m, eval)
    decreases n - m
  {
    if m < n {
      ScanFailureStays(lines, m, n - 1, eval);
    }
  }

  /** The loop of `parse_event_stream` over the lines of the stream. */
  method ScanLines(lines: seq<Line>, eval: LiteralEval) returns (r: Result<ScanState, ParseError>)
    ensures r == Scan(lines, |lines|, eval)
  {
    var eventType: Option<Kind> := None;
    var captured := "";
    var events: seq<CopilotEvent> := [];
    for i := 0 to |lines|
      invariant Scan(lines, i, eval) == Success(ScanState(eventType, captured, events))
    {
      var line := lines[i];
      ghost var next := Step(ScanState(eventType, captured, events), line, eval);
      assert Scan(lines, i + 1, eval) == next;
      if line.EventLine? {
        eventType := Some(line.kind);
      }
      if eventType.None? {
        ScanFailureStays(lines, i + 1, |lines|, eval);
        return Failure(UnboundEventType);
      }
      var kind := eventType.value;
      if kind == ChunkKind && line.DataLine? {
        var delta := ChunkDelta(line.payload, eval);
        if delta.Failure? {
          ScanFailureStays(lines, i + 1, |lines|, eval);
          return Failure(delta.error);
        }
        captured := captured + delta.value;
      } else if kind == CallKind && line.DataLine? {
        var content := EventContent(line.payload, eval);
        if content.Failure? {
          ScanFailureStays(lines, i + 1, |lines|, eval);
          return Failure(content.error);
        }
        events := events + [CopilotEvent(FunctionCallEvent, content.value)];
      } else if kind == StatusKind && line.DataLine? {
        var content := EventContent(line.payload, eval);
        if content.Failure? {
          ScanFailureStays(lines, i + 1, |lines|, eval);
          return Failure(content.error);
        }
        events := events + [CopilotEvent(StatusUpdateEvent, content.value)];
      }
      assert next == Success(ScanState(eventType, captured, events));
    }
    r := Success(ScanState(eventType, captured, events));
  }

  /** `parse_event_stream`: reads every line, then appends the collected message if there is one. */
  method ParseEventStream(stream: string, eval: LiteralEval) returns (r: Result<seq<CopilotEvent>, ParseError>)
    ensures r == ParseEvents(stream, eval)
  {
    r := ParseSplit(Lines(stream), eval);
  }

  /** The body of `parse_event_stream` once the stream is split into lines. */
  method ParseSplit(lines: seq<Line>, eval: LiteralEval) returns (r: Result<seq<CopilotEvent>, ParseError>)
    ensures r == ParseLines(lines, eval)
  {
    var scanned := ScanLines(lines, eval);
    if scanned.Failure? {
      return Failure(scanned.error);
    }
    var events := scanned.value.events;
    if scanned.value.captured != "" {
      events := events + [CopilotEvent(MessageEvent, StrContent(scanned.value.captured))];
    } else {
      assert events + [] == events;
    }
    r := Success(events);
  }

  // ---------------------------------------------------------------------------
  // The same result described line by line, without a running state

  /** The event type in force at line `i`: the one named by the last `event:` line at or before it. */
  function CurrentType(lines: seq<Line>, i: nat): Option<Kind>
    requires i < |lines|
  {
    if lines[i].EventLine? then Some(lines[i].kind)
    else if i == 0 then None
    else CurrentType(lines, i - 1)
  }

  function TypeAfter(lines: seq<Line>, n: nat): Option<Kind>
    requires n <= |lines|
  {
    if n == 0 then None else CurrentType(lines, n - 1)
  }

  /** Line `i` is a `data:` line read while the current type is of kind `k`. */
  predicate DataUnder(lines: seq<Line>, i: nat, k: Kind)
    requires i < |lines|
  {
    lines[i].DataLine? && CurrentType(lines, i) == Some(k)
  }

  /** Line `i` is a `data:` line read under a function-call or status-update type. */
  predicate EventLineAt(lines: seq<Line>, i: nat)
    requires i < |lines|
  {
    lines[i].DataLine? && CurrentType(lines, i).Some? && CurrentType(lines, i).value.Recorded()
  }

  /** The delta line `i` contributes to the message: its own when it is a chunk line, else nothing. */
  function LineDelta(lines: seq<Line>, i: nat, eval: LiteralEval): string
    requires i < |lines|
  {
    if DataUnder(lines, i, ChunkKind) && ChunkDelta(lines[i].payload, eval).Success?
    then ChunkDelta(lines[i].payload, eval).value
    else ""
  }

  /** The event line `i` contributes: one for a function-call or status-update data line. */
  function LineEvents(lines: seq<Line>, i: nat, eval: LiteralEval): seq<CopilotEvent>
    requires i < |lines|
  {
    if EventLineAt(lines, i) && EventContent(lines[i].payload, eval).Success?
    then [CopilotEvent(CurrentType(lines, i).value.RecordedAs(), EventContent(lines[i].payload, eval).value)]
    else []
  }

  function Deltas(lines: seq<Line>, n: nat, eval: LiteralEval): string
    requires n <= |lines|
  {
    if n == 0 then "" else Deltas(lines, n - 1, eval) + LineDelta(lines, n - 1, eval)
  }

  function LinesEvents(lines: seq<Line>, n: nat, eval: LiteralEval): seq<CopilotEvent>
    requires n <= |lines|
  {
    if n == 0 then [] else LinesEvents(lines, n - 1, eval) + LineEvents(lines, n - 1, eval)
  }

  /**
    The scan means what the line-by-line description says: the message is the
    in-order concatenation of the deltas of the chunk data lines, and the
    events are the function-call and status-update data lines, in order.
  */
  lemma {:induction false} ScanMeaning(lines: seq<Line>, n: nat, eval: LiteralEval)
    requires n <= |lines|
    requires Scan(lines, n, eval).Success?
    ensures Scan(lines, n, eval).value
            == ScanState(TypeAfter(lines, n), Deltas(lines, n, eval), LinesEvents(lines, n, eval))
  {
    if n > 0 {
      ScanMeaning(lines, n - 1, eval);
    }
  }

  /** A line the scan can read without an exception once an event type is bound. */
  predicate LineReadable(lines: seq<Line>, i: nat, eval: LiteralEval)
    requires i < |lines|
  {
    (DataUnder(lines, i, ChunkKind) ==> ChunkDelta(lines[i].payload, eval).Success?)
    && (EventLineAt(lines, i) ==> EventContent(lines[i].payload, eval).Success?)
  }

  /**
    The scan succeeds exactly when the first line is an `event:` line and every
    data line read under a known type decodes; when the first line is not an
    `event:` line the error is the unbound event type.
  */
  lemma {:induction false} ScanSucceeds(lines: seq<Line>, n: nat, eval: LiteralEval)
    requires 0 < n <= |lines|
    ensures Scan(lines, n, eval).Success?
            <==> lines[0].EventLine? && forall i :: 0 <= i < n ==> LineReadable(lines, i, eval)
    ensures !lines[0].EventLine? ==> Scan(lines, n, eval) == Failure(UnboundEventType)
    ensures lines[0].EventLine? ==> Scan(lines, n, eval) != Failure(UnboundEventType)
  {
    if n > 1 {
      ScanSucceeds(lines, n - 1, eval);
      assert (forall i :: 0 <= i < n ==> LineReadable(lines, i, eval))
             <==> (forall i :: 0 <= i < n - 1 ==> LineReadable(lines, i, eval)) && LineReadable(lines, n - 1, eval);
      if Scan(lines, n - 1, eval).Success? {
        StepSucceeds(lines, n, eval);
      }
    }
  }

  /** After a successful prefix, the next line is read exactly when it is readable. */
  lemma StepSucceeds(lines: seq<Line>, n: nat, eval: LiteralEval)
    requires 1 < n <= |lines| && lines[0].EventLine?
    requires Scan(lines, n - 1, eval).Success?
    ensures Scan(lines, n, eval).Success? <==> LineReadable(lines, n - 1, eval)
  {
    ScanMeaning(lines, n - 1, eval);
    CurrentTypeBound(lines, n - 1);
    assert CurrentType(lines, n - 1)
           == if lines[n - 1].EventLine? then Some(lines[n - 1].kind) else Scan(lines, n - 1, eval).value.eventType;
  }

  /** Once the first line is an `event:` line, every later line has a current type. */
  lemma {:induction false} CurrentTypeBound(lines: seq<Line>, i: nat)
    requires i < |lines| && lines[0].EventLine?
    ensures CurrentType(lines, i).Some?
  {
    if i > 0 && !lines[i].EventLine? {
      CurrentTypeBound(lines, i - 1);
    }
  }

  lemma {:induction false} LinesEventsKinds(lines: seq<Line>, n: nat, eval: LiteralEval)
    requires n <= |lines|
    ensures forall k :: 0 <= k < |LinesEvents(lines, n, eval)| ==> LinesEvents(lines, n, eval)[k].eventType != MessageEvent
  {
    if n > 0 {
      LinesEventsKinds(lines, n - 1, eval);
    }
  }

  /** The first line of a stream starts with `event:` exactly when the stream does. */
  lemma FirstLineIsEventLine(stream: string)
    ensures Lines(stream)[0].EventLine? <==> StartsWith(stream, EventTag)
  {
    var first := Split(stream, '\n')[0];
    SplitFirstPiece(stream, '\n');
    if '\n' in stream {
      CutStartsWith(stream, IndexOf(stream, '\n'), EventTag);
    }
  }

  /** Cutting a text just before a character the prefix does not contain keeps `startswith`. */
  lemma CutStartsWith(s: string, k: nat, p: string)
    requires k < |s| && s[k] !in p
    ensures StartsWith(s[..k], p) <==> StartsWith(s, p)
  {
    if StartsWith(s, p) {
      assert forall j :: 0 <= j < |p| ==> s[j] == p[j] && p[j] in p;
      assert s[..k][..|p|] == s[..|p|];
    }
  }

  /**
    Reading a stream: it fails with the unbound event type exactly when the
    stream does not begin with `event:` (the empty stream included); when it
    succeeds, every event but a final `copilotMessage` is a function call or a
    status update from one data line, in order, and the final message is
    present exactly when the concatenated deltas are non-empty, and holds them.
  */
  lemma ParseEventsMeaning(stream: string, eval: LiteralEval)
    ensures ParseEvents(stream, eval) == Failure(UnboundEventType) <==> !StartsWith(stream, EventTag)
    ensures ParseEvents(stream, eval).Success? ==>
              var lines := Lines(stream);
              var evs := ParseEvents(stream, eval).value;
              var text := Deltas(lines, |lines|, eval);
              && evs == LinesEvents(lines, |lines|, eval)
                        + (if text != "" then [CopilotEvent(MessageEvent, StrContent(text))] else [])
              && (forall k :: 0 <= k < |evs| && evs[k].eventType == MessageEvent ==> k == |evs| - 1)
  {
    var lines := Lines(stream);
    FirstLineIsEventLine(stream);
    ScanSucceeds(lines, |lines|, eval);
    if Scan(lines, |lines|, eval).Success? {
      ScanMeaning(lines, |lines|, eval);
      LinesEventsKinds(lines, |lines|, eval);
    }
  }

  // ---------------------------------------------------------------------------
  // text and function_calls

  /** `str(content)`; the text Python prints for a dict is foreign and given as `showDict`. */
  function ContentText(c: Content, showDict: map<string, Json> -> string): string {
    match c
    case StrContent(s) => s
    case DictContent(d) => showDict(d)
  }

  /** `CopilotResponse.text`: the concatenated contents of the `copilotMessage` events. */
  function TextOf(events: seq<CopilotEvent>, showDict: map<string, Json> -> string): string {
    if events == [] then ""
    else
      var last := events[|events| - 1];
      TextOf(events[..|events| - 1], showDict) + if last.eventType == MessageEvent then ContentText(last.content, showDict) else ""
  }

  /** `CopilotResponse.function_calls`: the `copilotFunctionCall` events, in order. */
  function FunctionCalls(events: seq<CopilotEvent>): seq<CopilotEvent> {
    if events == [] then []
    else
      var last := events[|events| - 1];
      FunctionCalls(events[..|events| - 1]) + if last.eventType == FunctionCallEvent then [last] else []
  }

  /**
    `function_calls` keeps exactly the function-call events: every event it
    returns is one, taken from the response, and every function-call event of
    the response is among them.
  */
  lemma {:induction false} FunctionCallsFilter(events: seq<CopilotEvent>)
    ensures |FunctionCalls(events)| <= |events|
    ensures forall e :: e in FunctionCalls(events) <==> e in events && e.eventType == FunctionCallEvent
  {
    if events != [] {
      FunctionCallsFilter(events[..|events| - 1]);
      assert events == events[..|events| - 1] + [events[|events| - 1]];
    }
  }

  /** The `copilotFunctionCall` data lines among the first `n`, in order. */
  function CallLines(lines: seq<Line>, n: nat, eval: LiteralEval): seq<CopilotEvent>
    requires n <= |lines|
  {
    if n == 0 then [] else CallLines(lines, n - 1, eval) + CallLine(lines, n - 1, eval)
  }

  /** The function call line `i` holds, if it is a `copilotFunctionCall` data line. */
  function CallLine(lines: seq<Line>, i: nat, eval: LiteralEval): seq<CopilotEvent>
    requires i < |lines|
  {
    if DataUnder(lines, i, CallKind) && EventContent(lines[i].payload, eval).Success?
    then [CopilotEvent(FunctionCallEvent, EventContent(lines[i].payload, eval).value)]
    else []
  }

  lemma LineCalls(lines: seq<Line>, i: nat, eval: LiteralEval)
    requires i < |lines|
    ensures FunctionCalls(LineEvents(lines, i, eval)) == CallLine(lines, i, eval)
  {
    var line := LineEvents(lines, i, eval);
    if line != [] {
      assert line[..0] == [];
    }
  }

  /** Events with no `copilotMessage` among them have no text. */
  lemma {:induction false} TextOfNoMessage(events: seq<CopilotEvent>, showDict: map<string, Json> -> string)
    requires forall k :: 0 <= k < |events| ==> events[k].eventType != MessageEvent
    ensures TextOf(events, showDict) == ""
  {
    if events != [] {
      TextOfNoMessage(events[..|events| - 1], showDict);
    }
  }

  lemma {:induction false} CallsOfLinesEvents(lines: seq<Line>, n: nat, eval: LiteralEval)
    requires n <= |lines|
    ensures FunctionCalls(LinesEvents(lines, n, eval)) == CallLines(lines, n, eval)
  {
    if n > 0 {
      var prev := LinesEvents(lines, n - 1, eval);
      var line := LineEvents(lines, n - 1, eval);
      var calls := CallLines(lines, n - 1, eval);
      var call := CallLine(lines, n - 1, eval);
      assert FunctionCalls(prev + line) == calls + call by {
        CallsOfLinesEvents(lines, n - 1, eval);
        LineCalls(lines, n - 1, eval);
        CallsOfAppend(prev, line, calls, call);
      }
      assert LinesEvents(lines, n, eval) == prev + line;
      assert CallLines(lines, n, eval) == calls + call;
    }
  }

  lemma CallsOfAppend(a: seq<CopilotEvent>, b: seq<CopilotEvent>, callsA: seq<CopilotEvent>, callsB: seq<CopilotEvent>)
    requires FunctionCalls(a) == callsA && FunctionCalls(b) == callsB
    ensures FunctionCalls(a + b) == callsA + callsB
  {
    FunctionCallsAppend(a, b);
  }

  lemma {:induction false} TextOfAppend(a: seq<CopilotEvent>, b: seq<CopilotEvent>, showDict: map<string, Json> -> string)
    ensures TextOf(a + b, showDict) == TextOf(a, showDict) + TextOf(b, showDict)
    decreases |b|
  {
    if b == [] {
      assert a + b == a;
    } else {
      var init, last := b[..|b| - 1], b[|b| - 1];
      var piece := if last.eventType == MessageEvent then ContentText(last.content, showDict) else "";
      TextOfAppend(a, init, showDict);
      assert (a + b)[..|a + b| - 1] == a + init;
      assert TextOf(a + b, showDict) == (TextOf(a, showDict) + TextOf(init, showDict)) + piece;
      assert TextOf(b, showDict) == TextOf(init, showDict) + piece;
    }
  }


  lemma {:induction false} FunctionCallsAppend(a: seq<CopilotEvent>, b: seq<CopilotEvent>)
    ensures FunctionCalls(a + b) == FunctionCalls(a) + FunctionCalls(b)
    decreases |b|
  {
    if b == [] {
      assert a + b == a;
    } else {
      FunctionCallsAppend(a, b[..|b| - 1]);
      assert (a + b)[..|a + b| - 1] == a + b[..|b| - 1];
    }
  }


  /**
    On a parsed stream, `text` is the concatenation of the chunk deltas and
    `function_calls` are exactly the function-call data lines, in order.
  */
  lemma ParsedTextAndCalls(stream: string, eval: LiteralEval, showDict: map<string, Json> -> string)
    requires ParseEvents(stream, eval).Success?
    ensures var lines := Lines(stream);
            && TextOf(ParseEvents(stream, eval).value, showDict) == Deltas(lines, |lines|, eval)
            && FunctionCalls(ParseEvents(stream, eval).value) == CallLines(lines, |lines|, eval)
  {
    var lines := Lines(stream);
    ParseEventsMeaning(stream, eval);
    var text := Deltas(lines, |lines|, eval);
    var tail := if text != "" then [CopilotEvent(MessageEvent, StrContent(text))] else [];
    LinesEventsKinds(lines, |lines|, eval);
    TextOfNoMessage(LinesEvents(lines, |lines|, eval), showDict);
    CallsOfLinesEvents(lines, |lines|, eval);
    TextOfAppend(LinesEvents(lines, |lines|, eval), tail, showDict);
    FunctionCallsAppend(LinesEvents(lines, |lines|, eval), tail);
    if tail != [] {
      assert TextOf(tail, showDict) == TextOf([], showDict) + text;
      assert FunctionCalls(tail) == FunctionCalls([]) + [];
    }
  }

  // ---------------------------------------------------------------------------
  // has_all

  /**
    `has_all` as written: its generator runs over every pair of an expected
    event and an actual event, so it holds only when each expected event equals
    every actual event.
  */
  predicate HasAllAsWritten(events: seq<CopilotEvent>, expected: seq<CopilotEvent>) {
    forall i, j :: 0 <= i < |expected| && 0 <= j < |events| ==> expected[i] == events[j]
  }

  /** A response with two different events fails `has_all` for one of its own events. */
  lemma HasAllAsWrittenRejectsOwnEvent(a: CopilotEvent, b: CopilotEvent)
    requires a != b
    ensures !HasAllAsWritten([a, b], [a])
    ensures HasAll([a, b], [a])
  {
    assert [a][0] != [a, b][1];
  }

  /** `has_all` as intended: every expected event occurs among the events. */
  function HasAll(events: seq<CopilotEvent>, expected: seq<CopilotEvent>): (r: bool)
    ensures r <==> forall i :: 0 <= i < |expected| ==> expected[i] in events
  {
    if expected == [] then true
    else expected[0] in events && HasAll(events, expected[1..])
  }

  /** Every response has all of its own function calls. */
  lemma HasAllFunctionCalls(events: seq<CopilotEvent>)
    ensures HasAll(events, FunctionCalls(events))
  {
    FunctionCallsFilter(events);
  }

  /** The written check is stronger: whenever it passes on a non-empty response, the intended one does. */
  lemma AsWrittenImpliesHasAll(events: seq<CopilotEvent>, expected: seq<CopilotEvent>)
    requires |events| > 0 && HasAllAsWritten(events, expected)
    ensures HasAll(events, expected)
  {
    forall i | 0 <= i < |expected| ensures expected[i] in events {
      assert expected[i] == events[0];
    }
  }

  // ---------------------------------------------------------------------------
  // The cursor

  /** How a check ends: it passes, its `assert` fails, or indexing raises IndexError or TypeError. */
  datatype Check = Passed | AssertionFailed | IndexError | TypeMismatch

  datatype NextResult = Yielded(event: CopilotEvent) | StopIteration | NextIndexError

  /** `s[i]` with Python's negative indices; `None` is an IndexError. */
  function PyIndex<T>(s: seq<T>, i: int): (r: Option<T>)
    ensures r.Some? <==> -|s| <= i < |s|
    ensures 0 <= i < |s| ==> r == Some(s[i])
    ensures -|s| <= i < 0 ==> r == Some(s[|s| + i])
  {
    if 0 <= i < |s| then Some(s[i])
    else if -|s| <= i < 0 then Some(s[|s| + i])
    else None
  }

  /** `assert events[i].event_type == t` (or `!=` when `equal` is false). */
  function CheckAt(events: seq<CopilotEvent>, i: int, t: string, equal: bool): (r: Check)
    ensures r == IndexError <==> PyIndex(events, i).None?
    ensures r == Passed <==> PyIndex(events, i).Some? && ((EventTypeName(PyIndex(events, i).value.eventType) == t) == equal)
    ensures r != TypeMismatch
  {
    match PyIndex(events, i)
    case None => IndexError
    case Some(e) => if (EventTypeName(e.eventType) == t) == equal then Passed else AssertionFailed
  }

  /** The `content_contains` argument: a text, or a dict given by its items in iteration order. */
  datatype Expectation = Fragment(s: string) | Fields(items: seq<(string, Json)>)

  /**
    `_check_equals(event, expected)` on the event's content: a text must occur
    in `str(content)`; a dict's items are checked in order.
  */
  function CheckEquals(c: Content, x: Expectation, showDict: map<string, Json> -> string): (r: Check)
    ensures r != IndexError
    ensures r == TypeMismatch ==> c.StrContent? && x.Fields?
    ensures x.Fragment? ==> (r == Passed <==> Contains(ContentText(c, showDict), x.s))
  {
    match x
    case Fragment(s) => if Contains(ContentText(c, showDict), s) then Passed else AssertionFailed
    case Fields(items) => CheckItems(c, items)
  }

  /**
    `for key, value in items: assert key in content; assert content[key] == value`.
    On a text content `key in content` is a substring test, and the
    indexing after it raises TypeError.
  */
  function CheckItems(c: Content, items: seq<(string, Json)>): (r: Check)
    ensures r != IndexError
    ensures r == TypeMismatch ==> c.StrContent?
  {
    if items == [] then Passed
    else
      var key := items[0].0;
      match c
      case StrContent(s) => if Contains(s, key) then TypeMismatch else AssertionFailed
      case DictContent(d) =>
        if key !in d || d[key] != items[0].1 then AssertionFailed
        else CheckItems(c, items[1..])
  }

  /**
    A dict expectation passes on a dict content exactly when every item names
    a key of the content holding an equal value, and fails its `assert`
    otherwise. On a text content only the empty dict passes; any other raises
    TypeError when its first key occurs in the text and fails otherwise.
  */
  lemma {:induction false} CheckItemsMeaning(c: Content, items: seq<(string, Json)>)
    ensures c.DictContent? ==>
              && (CheckItems(c, items) == Passed <==>
                    forall i :: 0 <= i < |items| ==> items[i].0 in c.d && c.d[items[i].0] == items[i].1)
              && CheckItems(c, items) != TypeMismatch
    ensures c.StrContent? ==>
              && (CheckItems(c, items) == Passed <==> items == [])
              && (items != [] ==> (CheckItems(c, items) == TypeMismatch <==> Contains(c.s, items[0].0)))
    decreases |items|
  {
    if items != [] && c.DictContent? {
      CheckItemsMeaning(c, items[1..]);
      if items[0].0 in c.d && c.d[items[0].0] == items[0].1 {
        forall i | 0 <= i < |items| && i > 0
          ensures items[i] == items[1..][i - 1]
        {
        }
      }
    }
  }

  /** `_check_equals(events[i], expected)`. */
  function ContentCheckAt(events: seq<CopilotEvent>, i: int, x: Expectation, showDict: map<string, Json> -> string): (r: Check)
    ensures r == IndexError <==> PyIndex(events, i).None?
    ensures r == TypeMismatch ==> PyIndex(events, i).value.content.StrContent? && x.Fields?
  {
    match PyIndex(events, i)
    case None => IndexError
    case Some(e) => CheckEquals(e.content, x, showDict)
  }

  /** `assert fragment not in str(events[i].content)`. */
  function AbsentAt(events: seq<CopilotEvent>, i: int, fragment: string, showDict: map<string, Json> -> string): (r: Check)
    ensures r == IndexError <==> PyIndex(events, i).None?
    ensures r != TypeMismatch
  {
    match PyIndex(events, i)
    case None => IndexError
    case Some(e) => if Contains(ContentText(e.content, showDict), fragment) then AssertionFailed else Passed
  }

  /** `with_not(s)` is the opposite of `with_(s)` on the same event: exactly one of them passes. */
  lemma WithNotNegatesWith(events: seq<CopilotEvent>, i: int, fragment: string, showDict: map<string, Json> -> string)
    requires PyIndex(events, i).Some?
    ensures AbsentAt(events, i, fragment, showDict) == Passed <==> ContentCheckAt(events, i, Fragment(fragment), showDict) != Passed
    ensures AbsentAt(events, i, fragment, showDict) != IndexError && ContentCheckAt(events, i, Fragment(fragment), showDict) != IndexError
  {
  }

  /** The generator of `has_any`: some event has type `t` and `s` in the text of its content. */
  function AnyMatch(events: seq<CopilotEvent>, t: string, s: string, showDict: map<string, Json> -> string): (r: bool)
    ensures r <==> exists i :: 0 <= i < |events| && EventTypeName(events[i].eventType) == t && Contains(ContentText(events[i].content, showDict), s)
  {
    if events == [] then false
    else
      var last := events[|events| - 1];
      var found := EventTypeName(last.eventType) == t && Contains(ContentText(last.content, showDict), s);
      assert forall i :: 0 <= i < |events| - 1 ==> events[..|events| - 1][i] == events[i];
      AnyMatch(events[..|events| - 1], t, s, showDict) || found
  }

  /**
    Whatever the cursor checks accept, `has_any` accepts: an event that passes
    `then(t)` and `with_(s)` at any position makes `has_any(t, s)` pass.
  */
  lemma CursorChecksImplyHasAny(events: seq<CopilotEvent>, i: int, t: string, s: string, showDict: map<string, Json> -> string)
    requires CheckAt(events, i, t, true) == Passed && ContentCheckAt(events, i, Fragment(s), showDict) == Passed
    ensures AnyMatch(events, t, s, showDict)
  {
    var k := if i >= 0 then i else |events| + i;
    assert events[k] == PyIndex(events, i).value;
  }

  class CopilotResponse {
    var events: seq<CopilotEvent>
    var index: int
    const eventStream: string

    constructor FromEvents(stream: string, parsed: seq<CopilotEvent>)
      ensures eventStream == stream && events == parsed && index == 0
    {
      eventStream := stream;
      events := parsed;
      index := 0;
    }

    /** `CopilotResponse(stream)`: reads the stream, or raises what reading raises. */
    static method Create(stream: string, eval: LiteralEval) returns (r: Result<CopilotResponse, ParseError>)
      ensures r.Success? <==> ParseEvents(stream, eval).Success?
      ensures r.Failure? ==> r.error == ParseEvents(stream, eval).error
      ensures r.Success? ==> fresh(r.value) && r.value.events == ParseEvents(stream, eval).value
                             && r.value.index == 0 && r.value.eventStream == stream
    {
      var parsed := ParseEventStream(stream, eval);
      if parsed.Failure? {
        return Failure(parsed.error);
      }
      var response := new CopilotResponse.FromEvents(stream, parsed.value);
      r := Success(response);
    }

    /** `__next__`: the event at `index`, advancing by one, until `index` reaches the end. */
    method Next() returns (r: NextResult)
      modifies this`index
      ensures old(index) >= |events| ==> r == StopIteration && index == old(index)
      ensures 0 <= old(index) < |events| ==> r == Yielded(events[old(index)]) && index == old(index) + 1
      ensures old(index) < 0 && -|events| <= old(index) ==> r == Yielded(events[|events| + old(index)]) && index == old(index) + 1
      ensures old(index) < -|events| ==> r == NextIndexError && index == old(index)
    {
      if index < |events| {
        var e := PyIndex(events, index);
        if e.None? {
          return NextIndexError;
        }
        index := index + 1;
        r := Yielded(e.value);
      } else {
        r := StopIteration;
      }
    }

    /**
      `list(response)`: calls `__next__` until it stops. From a cursor at or
      above 0 each remaining event is seen once, in order. A cursor of -k
      first yields the last k events and then, counting up through 0, every
      event again. A cursor below -len(events) raises IndexError at once.
    */
    method Drain() returns (seen: seq<CopilotEvent>, raised: bool)
      modifies this`index
      ensures raised <==> old(index) < -|events|
      ensures raised || old(index) >= |events| ==> seen == [] && index == old(index)
      ensures 0 <= old(index) <= |events| ==> seen == events[old(index)..] && index == |events|
      ensures -|events| <= old(index) < 0 ==> seen == events[|events| + old(index)..] + events && index == |events|
    {
      seen := [];
      raised := false;
      ghost var start := index;
      var n := |events|;
      while true
        invariant events == old(events) && n == |events|
        invariant !raised
        invariant start < -n || start >= n ==> index == start && seen == []
        invariant 0 <= start < n ==> start <= index <= n && seen == events[start..index]
        invariant -n <= start < 0 ==>
                    && start <= index <= n
                    && seen == if index <= 0 then events[n + start..n + index] else events[n + start..] + events[..index]
        decreases n - index
      {
        ghost var before := index;
        var r := Next();
        if r == NextIndexError {
          raised := true;
          break;
        }
        if !r.Yielded? {
          break;
        }
        seen := seen + [r.event];
        if -n <= start < 0 {
          if before < 0 {
            assert events[n + start..n + before] + [events[n + before]] == events[n + start..n + before + 1];
          } else {
            assert events[..before] + [events[before]] == events[..before + 1];
          }
        }
      }
    }

    /** `starts(t)`: moves to the first event and checks its type. */
    method Starts(t: string) returns (r: Check)
      modifies this`index
      ensures index == 0 && r == CheckAt(events, 0, t, true)
    {
      index := 0;
      r := CheckAt(events, index, t, true);
    }

    /** `with_(expected)`: checks the content of the current event, leaving the cursor where it is. */
    method With(x: Expectation, showDict: map<string, Json> -> string) returns (r: Check)
      ensures r == ContentCheckAt(events, index, x, showDict)
    {
      var e := PyIndex(events, index);
      if e.None? {
        return IndexError;
      }
      r := CheckEquals(e.value.content, x, showDict);
    }

    /** `and_(expected)`: the same check as `with_`, read as a further condition on the same event. */
    method And(x: Expectation, showDict: map<string, Json> -> string) returns (r: Check)
      ensures r == ContentCheckAt(events, index, x, showDict)
    {
      r := With(x, showDict);
    }

    /** `with_not(s)`: checks that `s` does not occur in the text of the current event's content. */
    method WithNot(fragment: string, showDict: map<string, Json> -> string) returns (r: Check)
      ensures r == AbsentAt(events, index, fragment, showDict)
    {
      var e := PyIndex(events, index);
      if e.None? {
        return IndexError;
      }
      r := if Contains(ContentText(e.value.content, showDict), fragment) then AssertionFailed else Passed;
    }

    /** `has_any(t, s)`: passes exactly when some event has type `t` and `s` in the text of its content. */
    method HasAny(t: string, s: string, showDict: map<string, Json> -> string) returns (r: Check)
      ensures r == Passed <==> AnyMatch(events, t, s, showDict)
      ensures r == Passed || r == AssertionFailed
    {
      r := if AnyMatch(events, t, s, showDict) then Passed else AssertionFailed;
    }

    /** `then(t)`: moves one event on and checks its type. */
    method Then(t: string) returns (r: Check)
      modifies this`index
      ensures index == old(index) + 1 && r == CheckAt(events, index, t, true)
    {
      index := index + 1;
      r := CheckAt(events, index, t, true);
    }

    /** `then_not(t)`: moves one event on and checks it is not of type `t`. */
    method ThenNot(t: string) returns (r: Check)
      modifies this`index
      ensures index == old(index) + 1 && r == CheckAt(events, index, t, false)
    {
      index := index + 1;
      r := CheckAt(events, index, t, false);
    }

    /** `then_ignore()`: moves one event on without a check. */
    method ThenIgnore()
      modifies this`index
      ensures index == old(index) + 1
    {
      index := index + 1;
    }

    /** `ends(t)`: moves to the last event and checks its type. */
    method Ends(t: string) returns (r: Check)
      modifies this`index
      ensures index == |events| - 1 && r == CheckAt(events, index, t, true)
    {
      index := |events| - 1;
      r := CheckAt(events, index, t, true);
    }

    /** `ends_not(t)`: moves to the last event and checks it is not of type `t`. */
    method EndsNot(t: string) returns (r: Check)
      modifies this`index
      ensures index == |events| - 1 && r == CheckAt(events, index, t, false)
    {
      index := |events| - 1;
      r := CheckAt(events, index, t, false);
    }
  }

  // ---------------------------------------------------------------------------
  // capture_stream_response

  datatype CaptureState = CaptureState(eventType: Option<Kind>, captured: string, name: string)

  function CaptureStep(st: CaptureState, line: Line, eval: LiteralEval): Result<CaptureState, ParseError> {
    var ty := if line.EventLine? then Some(line.kind) else st.eventType;
    if ty.None? then Failure(UnboundEventType)
    else if ty.value == ChunkKind && line.DataLine? then
      match ChunkDelta(line.payload, eval)
      case Failure(e) => Failure(e)
      case Success(d) => Success(CaptureState(ty, st.captured + d, MessageChunk))
    else Success(st.(eventType := ty))
  }

  function CaptureScan(lines: seq<Line>, n: nat, eval: LiteralEval): Result<CaptureState, ParseError>
    requires n <= |lines|
  {
    if n == 0 then Success(CaptureState(None, "", ""))
    else match CaptureScan(lines, n - 1, eval)
      case Failure(e) => Failure(e)
      case Success(st) => CaptureStep(st, lines[n - 1], eval)
  }

  /**
    What `capture_stream_response` returns: for a stream that mentions
    `copilotFunctionCall` anywhere, that name and the text after the last
    `data:` of the second line; otherwise the chunk deltas, named after the
    chunk event when a chunk data line was read.
  */
  function CaptureStream(stream: string, eval: LiteralEval): Result<(string, string), ParseError> {
    var raw := Split(stream, '\n');
    if Contains(stream, FunctionCall) then
      if |raw| < 2 then Failure(MissingLine)
      else Success((FunctionCall, Strip(SplitLast(raw[1], DataTag))))
    else
      var lines := Lines(stream);
      match CaptureScan(lines, |lines|, eval)
      case Failure(e) => Failure(e)
      case Success(st) => Success((st.name, st.captured))
  }

  lemma {:induction false} CaptureFailureStays(lines: seq<Line>, m: nat, n: nat, eval: LiteralEval)
    requires m <= n <= |lines|
    requires CaptureScan(lines, m, eval).Failure?
    ensures CaptureScan(lines, n, eval) == CaptureScan(lines, m, eval)
    decreases n - m
  {
    if m < n {
      CaptureFailureStays(lines, m, n - 1, eval);
    }
  }

  /** The loop of `capture_stream_response` over the lines of the stream. */
  method CaptureLines(lines: seq<Line>, eval: LiteralEval) returns (r: Result<CaptureState, ParseError>)
    ensures r == CaptureScan(lines, |lines|, eval)
  {
    var captured := "";
    var name := "";
    var eventType: Option<Kind> := None;
    for i := 0 to |lines|
      invariant CaptureScan(lines, i, eval) == Success(CaptureState(eventType, captured, name))
    {
      var line := lines[i];
      ghost var next := CaptureStep(CaptureState(eventType, captured, name), line, eval);
      assert CaptureScan(lines, i + 1, eval) == next;
      if line.EventLine? {
        eventType := Some(line.kind);
      }
      if eventType.None? {
        CaptureFailureStays(lines, i + 1, |lines|, eval);
        return Failure(UnboundEventType);
      }
      if eventType.value == ChunkKind && line.DataLine? {
        name := MessageChunk;
        var delta := ChunkDelta(line.payload, eval);
        if delta.Failure? {
          CaptureFailureStays(lines, i + 1, |lines|, eval);
          return Failure(delta.error);
        }
        captured := captured + delta.value;
      }
      assert next == Success(CaptureState(eventType, captured, name));
    }
    r := Success(CaptureState(eventType, captured, name));
  }

  /** `capture_stream_response` */
  method CaptureStreamResponse(stream: string, eval: LiteralEval) returns (r: Result<(string, string), ParseError>)
    ensures r == CaptureStream(stream, eval)
  {
    if Contains(stream, FunctionCall) {
      var parts := Split(stream, '\n');
      if |parts| < 2 {
        return Failure(MissingLine);
      }
      return Success((FunctionCall, Strip(SplitLast(parts[1], DataTag))));
    }
    var scanned := CaptureLines(Lines(stream), eval);
    if scanned.Failure? {
      return Failure(scanned.error);
    }
    r := Success((scanned.value.name, scanned.value.captured));
  }

  /** Some data line among the first `n` was read under `copilotMessageChunk`. */
  predicate SawChunkLine(lines: seq<Line>, n: nat)
    requires n <= |lines|
  {
    exists i :: 0 <= i < n && DataUnder(lines, i, ChunkKind)
  }

  lemma SawChunkLineStep(lines: seq<Line>, n: nat)
    requires 0 < n <= |lines|
    ensures SawChunkLine(lines, n) <==> SawChunkLine(lines, n - 1) || DataUnder(lines, n - 1, ChunkKind)
  {
    if SawChunkLine(lines, n) && !DataUnder(lines, n - 1, ChunkKind) {
      var i :| 0 <= i < n && DataUnder(lines, i, ChunkKind);
      assert i < n - 1;
    }
    if SawChunkLine(lines, n - 1) {
      var i :| 0 <= i < n - 1 && DataUnder(lines, i, ChunkKind);
      assert 0 <= i < n;
    }
  }

  /** Wherever the full reader succeeds, the capture reads the same deltas. */
  lemma {:induction false} CaptureScanAgrees(lines: seq<Line>, n: nat, eval: LiteralEval)
    requires n <= |lines|
    requires Scan(lines, n, eval).Success?
    ensures CaptureScan(lines, n, eval).Success?
    ensures CaptureScan(lines, n, eval).value.captured == Scan(lines, n, eval).value.captured
    ensures CaptureScan(lines, n, eval).value.eventType == Scan(lines, n, eval).value.eventType
    ensures CaptureScan(lines, n, eval).value.name == if SawChunkLine(lines, n) then MessageChunk else ""
  {
    if n > 0 {
      CaptureScanAgrees(lines, n - 1, eval);
      ScanMeaning(lines, n - 1, eval);
      SawChunkLineStep(lines, n);
      assert CurrentType(lines, n - 1)
             == if lines[n - 1].EventLine? then Some(lines[n - 1].kind) else Scan(lines, n - 1, eval).value.eventType;
    }
  }

  /**
    For a stream without function calls that the full reader accepts,
    `capture_stream_response` returns the same text as `text`, named
    `copilotMessageChunk` exactly when a chunk data line was read.
  */
  lemma CaptureMatchesText(stream: string, eval: LiteralEval, showDict: map<string, Json> -> string)
    requires !Contains(stream, FunctionCall)
    requires ParseEvents(stream, eval).Success?
    ensures var lines := Lines(stream);
            && CaptureStream(stream, eval).Success?
            && CaptureStream(stream, eval).value.1 == TextOf(ParseEvents(stream, eval).value, showDict)
            && CaptureStream(stream, eval).value.0 == if SawChunkLine(lines, |lines|) then MessageChunk else ""
  {
    var lines := Lines(stream);
    CaptureScanAgrees(lines, |lines|, eval);
    ScanMeaning(lines, |lines|, eval);
    ParsedTextAndCalls(stream, eval, showDict);
  }
}
