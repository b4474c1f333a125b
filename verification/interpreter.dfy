/**
  The code-interpreter worker (code-interpreter-copilot/code_interpreter_copilot/code_interpreter.py).

  A console owns an output buffer; while it runs code it points the process's
  stdout and stderr at that buffer. The worker reads snippets from a queue,
  runs or evaluates them line-wise, and answers each with the captured output.

  Python itself (`compile`, `exec`, `eval`) is foreign. It is given as a
  `Python` value: what compiling a text in a mode reports, and what running or
  evaluating a text does. Running code depends on everything run before it in
  the same namespace, so both take the history of what the console has run.
*/
module Interpreter {
  import opened Wrappers
  import opened Text

  datatype Mode = ExecMode | EvalMode

  /** One piece of code the console ran, in the order it ran. */
  datatype Executed = ExecCode(code: string) | EvalCode(code: string)

  /** What `exec` of compiled statements does: what it writes to stdout, then how it ends. */
  datatype ExecOutcome =
    | Finished(written: string)
    | Raised(written: string, traceback: string)  // any exception but SystemExit
    | Exited(written: string)                      // SystemExit, which `runcode` re-raises

  /** What `eval` of a compiled expression does: what it writes to stdout, then its value or exception. */
  datatype EvalOutcome =
    | Value(written: string, shown: string)  // a value other than None, and `str` of it
    | NoneValue(written: string)
    | EvalRaised(written: string, message: string)  // `str` of the exception
    | EvalExited(written: string)                   // SystemExit, e.g. `exit()`

  datatype Python = Python(
    compileError: (string, Mode) -> Option<string>,  // `str` of the SyntaxError, if compiling fails
    execute: (seq<Executed>, string) -> ExecOutcome,
    evaluate: (seq<Executed>, string) -> EvalOutcome)

  /** Where `sys.stdout` or `sys.stderr` points. */
  datatype Sink = ProcessOut | ProcessErr | Buffer

  /** What `exec` leaves in the captured output: what it printed, then any traceback `runcode` shows. */
  function Captured(o: ExecOutcome): string {
    match o
    case Finished(w) => w
    case Raised(w, tb) => w + tb
    case Exited(w) => w
  }

  /** Everything a console holds between two calls. */
  datatype ConsoleState = ConsoleState(
    buffer: string,
    history: seq<Executed>,
    processOut: string,
    processErr: string)

  // ---------------------------------------------------------------------------
  // The console

  class CapturingConsole {
    var buffer: string
    var stdout: Sink
    var stderr: Sink
    var history: seq<Executed>
    var processOut: string
    var processErr: string
    const py: Python

    function State(): ConsoleState
      reads this
    {
      ConsoleState(buffer, history, processOut, processErr)
    }

    /** Between calls, stdout and stderr are the process's own. */
    predicate AtRest()
      reads this
    {
      stdout == ProcessOut && stderr == ProcessErr
    }

    constructor(python: Python)
      ensures py == python && AtRest()
      ensures State() == ConsoleState("", [], "", "")
    {
      py := python;
      buffer := "";
      stdout := ProcessOut;
      stderr := ProcessErr;
      history := [];
      processOut := "";
      processErr := "";
    }

    /** Writes `text` where `sink` points. */
    method WriteTo(sink: Sink, text: string)
      modifies this`buffer, this`processOut, this`processErr
      ensures buffer == old(buffer) + (if sink == Buffer then text else "")
      ensures processOut == old(processOut) + (if sink == ProcessOut then text else "")
      ensures processErr == old(processErr) + (if sink == ProcessErr then text else "")
    {
      match sink
      case Buffer => buffer := buffer + text;
      case ProcessOut => processOut := processOut + text;
      case ProcessErr => processErr := processErr + text;
    }

    /**
      `runcode`: points stdout and stderr at the buffer, runs the code, and
      points them back whatever happened. It reports whether the code raised
      SystemExit, the one exception `runcode` lets through.
    */
    method RunCode(code: string) returns (exited: bool)
      modifies this`buffer, this`stdout, this`stderr, this`history, this`processOut, this`processErr
      ensures stdout == old(stdout) && stderr == old(stderr)
      ensures history == old(history) + [ExecCode(code)]
      ensures buffer == old(buffer) + Captured(py.execute(old(history), code))
      ensures processOut == old(processOut) && processErr == old(processErr)
      ensures exited <==> py.execute(old(history), code).Exited?
    {
      var oldStdout, oldStderr := stdout, stderr;
      stdout, stderr := Buffer, Buffer;
      var outcome := py.execute(history, code);
      history := history + [ExecCode(code)];
      WriteTo(stdout, outcome.written);
      if outcome.Raised? {
        WriteTo(stderr, outcome.traceback);
      }
      stdout, stderr := oldStdout, oldStderr;
      exited := outcome.Exited?;
    }

    /** `eval(compiled, console.locals)`: runs with the console at rest, so what it prints reaches the process's stdout. */
    method Eval(code: string) returns (outcome: EvalOutcome)
      requires AtRest()
      modifies this`buffer, this`history, this`processOut, this`processErr
      ensures outcome == py.evaluate(old(history), code)
      ensures history == old(history) + [EvalCode(code)]
      ensures processOut == old(processOut) + outcome.written
      ensures buffer == old(buffer) && processErr == old(processErr)
    {
      outcome := py.evaluate(history, code);
      history := history + [EvalCode(code)];
      WriteTo(stdout, outcome.written);
    }

    /** `get_output`: the buffer without its trailing newlines; the buffer is emptied. */
    method GetOutput() returns (r: string)
      modifies this`buffer
      ensures r == RStripChar(old(buffer), '\n')
      ensures buffer == ""
    {
      r := RStripChar(buffer, '\n');
      buffer := "";
    }
  }

  // ---------------------------------------------------------------------------
  // One request, as a function of the console state

  /** What the worker does with one request. */
  datatype Reply =
    | Answered(text: string)  // `get_output()` after the snippet ran
    | Failed(text: string)    // `str(e)` of the exception that stopped it
    | Quit                    // SystemExit: the worker ends without answering

  function RunSpec(py: Python, s: ConsoleState, code: string): ConsoleState {
    s.(buffer := s.buffer + Captured(py.execute(s.history, code)), history := s.history + [ExecCode(code)])
  }

  function EvalSpec(py: Python, s: ConsoleState, code: string): ConsoleState {
    s.(history := s.history + [EvalCode(code)], processOut := s.processOut + py.evaluate(s.history, code).written)
  }

  /** After the snippet ran: `get_output()` becomes the answer. */
  function TakeOutput(s: ConsoleState): (ConsoleState, Reply) {
    (s.(buffer := ""), Answered(RStripChar(s.buffer, '\n')))
  }

  /** Running the snippet's last part as statements. */
  function ExecLast(py: Python, s: ConsoleState, code: string): (ConsoleState, Reply) {
    var s' := RunSpec(py, s, code);
    if py.execute(s.history, code).Exited? then (s', Quit) else TakeOutput(s')
  }

  /** Evaluating the snippet's last part; a value other than None is printed into the buffer. */
  function EvalLast(py: Python, s: ConsoleState, code: string): (ConsoleState, Reply) {
    var s' := EvalSpec(py, s, code);
    match py.evaluate(s.history, code)
    case EvalRaised(_, msg) => (s', Failed(msg))
    case EvalExited(_) => (s', Quit)
    case NoneValue(_) => TakeOutput(s')
    case Value(_, shown) => TakeOutput(s'.(buffer := s'.buffer + shown + "\n"))
  }

  /** The lines of a snippet: `code.strip().split("\n")`. */
  function SnippetLines(code: string): seq<string> {
    Split(Strip(code), '\n')
  }

  /** Everything but the last line, `"\n".join(lines[:-1])`. */
  function Statements(lines: seq<string>): string
    requires |lines| > 1
  {
    Join(lines[..|lines| - 1], '\n')
  }

  const PrintCall: string := "print("

  /** The body of the worker's loop for one snippet. */
  function Respond(py: Python, s: ConsoleState, code: string): (r: (ConsoleState, Reply))
    ensures s.history <= r.0.history
  {
    var lines := SnippetLines(code);
    if |lines| > 1 then
      var stmt := Statements(lines);
      var last := lines[|lines| - 1];
      var ran: Result<ConsoleState, Reply> :=
        if stmt == "" then Success(s)
        else match py.compileError(stmt, ExecMode)
          case Some(msg) => Failure(Failed(msg))
          case None =>
            if py.execute(s.history, stmt).Exited? then Failure(Quit)
            else Success(RunSpec(py, s, stmt));
      match ran
      case Failure(reply) => (if reply.Quit? then RunSpec(py, s, stmt) else s, reply)
      case Success(s1) =>
        if py.compileError(last, EvalMode).None? then EvalLast(py, s1, last)
        else match py.compileError(last, ExecMode)
          case Some(msg) => (s1, Failed(msg))
          case None => ExecLast(py, s1, last)
    else if Contains(code, PrintCall) && py.compileError(code, ExecMode).None? then
      ExecLast(py, s, code)
    else
      match py.compileError(code, EvalMode)
      case Some(msg) => (s, Failed(msg))
      case None => EvalLast(py, s, code)
  }

  /** One iteration of `repl_worker`'s loop for a snippet. */
  method Serve(console: CapturingConsole, code: string) returns (reply: Reply)
    requires console.AtRest()
    modifies console
    ensures console.AtRest()
    ensures (console.State(), reply) == Respond(console.py, old(console.State()), code)
  {
    var py := console.py;
    var lines := SnippetLines(code);
    if |lines| > 1 {
      var stmt := Statements(lines);
      if stmt != "" {
        var err := py.compileError(stmt, ExecMode);
        if err.Some? {
          return Failed(err.value);
        }
        var exited := console.RunCode(stmt);
        if exited {
          return Quit;
        }
      }
      var last := lines[|lines| - 1];
      if py.compileError(last, EvalMode).None? {
        reply := EvaluateAndAnswer(console, last);
      } else {
        var err := py.compileError(last, ExecMode);
        if err.Some? {
          return Failed(err.value);
        }
        reply := RunAndAnswer(console, last);
      }
    } else if Contains(code, PrintCall) && py.compileError(code, ExecMode).None? {
      reply := RunAndAnswer(console, code);
    } else {
      var err := py.compileError(code, EvalMode);
      if err.Some? {
        return Failed(err.value);
      }
      reply := EvaluateAndAnswer(console, code);
    }
  }

  /** Runs compiled statements, then answers with `get_output()` unless the code exited. */
  method RunAndAnswer(console: CapturingConsole, code: string) returns (reply: Reply)
    requires console.AtRest()
    modifies console
    ensures console.AtRest()
    ensures (console.State(), reply) == ExecLast(console.py, old(console.State()), code)
  {
    var exited := console.RunCode(code);
    if exited {
      return Quit;
    }
    var out := console.GetOutput();
    reply := Answered(out);
  }

  /** Evaluates an expression, prints a value that is not None into the buffer, then answers with `get_output()`. */
  method EvaluateAndAnswer(console: CapturingConsole, code: string) returns (reply: Reply)
    requires console.AtRest()
    modifies console
    ensures console.AtRest()
    ensures (console.State(), reply) == EvalLast(console.py, old(console.State()), code)
  {
    var outcome := console.Eval(code);
    if outcome.EvalRaised? {
      return Failed(outcome.message);
    }
    if outcome.EvalExited? {
      return Quit;
    }
    if outcome.Value? {
      console.buffer := console.buffer + outcome.shown + "\n";
    }
    var out := console.GetOutput();
    reply := Answered(out);
  }

  // ---------------------------------------------------------------------------
  // Properties of the dispatch rule

  /** `get_output` empties the buffer, so asking again at once gives "". */
  lemma AnswerEmptiesBuffer(s: ConsoleState)
    ensures TakeOutput(s).0.buffer == ""
    ensures TakeOutput(TakeOutput(s).0).1 == Answered("")
    ensures TakeOutput(s).1.text == s.buffer[..|TakeOutput(s).1.text|]
  {
  }

  /** The `if stmt_code:` guard never skips: the statement block of a multi-line snippet is never empty. */
  lemma StatementsNotEmpty(code: string)
    requires |SnippetLines(code)| > 1
    ensures Statements(SnippetLines(code)) != ""
  {
    var t := Strip(code);
    var lines := SnippetLines(code);
    SplitFirstPiece(t, '\n');
    if '\n' !in t {
      SplitNoSeparator(t, '\n');
      assert false;
    }
    var k := IndexOf(t, '\n');
    assert t != "" && !IsSpace(t[0]);
    assert k > 0;
    assert |lines[0]| > 0;
    JoinStartsWithFirst(lines[..|lines| - 1], '\n');
  }

  /** A text without the separator splits into one piece. */
  lemma {:induction false} SplitNoSeparator(s: string, c: char)
    requires c !in s
    ensures |Split(s, c)| == 1
    decreases |s|
  {
    if s != "" {
      SplitNoSeparator(s[1..], c);
    }
  }

  lemma {:induction false} JoinStartsWithFirst(parts: seq<string>, c: char)
    requires |parts| >= 1
    ensures |Join(parts, c)| >= |parts[0]|
  {
  }

  /**
    A multi-line snippet runs its statement block first; then the last line is
    evaluated when it compiles as an expression and executed otherwise, never
    both.
  */
  lemma MultiLineOrder(py: Python, s: ConsoleState, code: string)
    requires |SnippetLines(code)| > 1
    requires py.compileError(Statements(SnippetLines(code)), ExecMode).None?
    requires !py.execute(s.history, Statements(SnippetLines(code))).Exited?
    ensures var lines := SnippetLines(code);
            var last := lines[|lines| - 1];
            var h := Respond(py, s, code).0.history;
            var h1 := s.history + [ExecCode(Statements(lines))];
            && (py.compileError(last, EvalMode).None? ==> h == h1 + [EvalCode(last)])
            && (py.compileError(last, EvalMode).Some? && py.compileError(last, ExecMode).None? ==> h == h1 + [ExecCode(last)])
            && (py.compileError(last, EvalMode).Some? && py.compileError(last, ExecMode).Some? ==> h == h1)
  {
    StatementsNotEmpty(code);
  }

  /** A single line containing `print(` that compiles is run as a statement and never evaluated. */
  lemma PrintLineIsRun(py: Python, s: ConsoleState, code: string)
    requires |SnippetLines(code)| <= 1
    requires Contains(code, PrintCall) && py.compileError(code, ExecMode).None?
    ensures Respond(py, s, code) == ExecLast(py, s, code)
    ensures Respond(py, s, code).0.history == s.history + [ExecCode(code)]
  {
  }

  /** Any other single line is only ever evaluated. */
  lemma OtherLineIsEvaluated(py: Python, s: ConsoleState, code: string)
    requires |SnippetLines(code)| <= 1 && !Contains(code, PrintCall)
    ensures Respond(py, s, code).0.history
            == if py.compileError(code, EvalMode).None? then s.history + [EvalCode(code)] else s.history
  {
    var r := Respond(py, s, code);
    if py.compileError(code, EvalMode).None? {
      assert r == EvalLast(py, s, code);
      assert EvalSpec(py, s, code).history == s.history + [EvalCode(code)];
    } else {
      assert r == (s, Failed(py.compileError(code, EvalMode).value));
    }
  }

  /**
    A failure answers with the exception's text and leaves the buffer as the
    run left it: nothing is cleared, so that text is part of the next answer.
  */
  lemma FailureKeepsBuffer(py: Python, s: ConsoleState, code: string)
    requires Respond(py, s, code).1.Failed?
    ensures StartsWith(Respond(py, s, code).0.buffer, s.buffer)
  {
    var lines := SnippetLines(code);
    if |lines| > 1 {
      var stmt := Statements(lines);
      if stmt != "" && py.compileError(stmt, ExecMode).None? && !py.execute(s.history, stmt).Exited? {
        var s1 := RunSpec(py, s, stmt);
        assert s1.buffer[..|s.buffer|] == s.buffer;
      }
    }
  }

  /**
    On the multi-line path, a last line `print(x)` compiles as an expression, so
    it is evaluated: what it prints goes to the process's stdout, and the answer
    holds only the statement block's output.
  */
  lemma TrailingPrintIsLost(py: Python, s: ConsoleState, code: string)
    requires |SnippetLines(code)| > 1
    requires var lines := SnippetLines(code);
             var stmt := Statements(lines);
             && py.compileError(stmt, ExecMode).None? && py.execute(s.history, stmt) == Finished("")
             && py.compileError(lines[|lines| - 1], EvalMode).None?
             && py.evaluate(s.history + [ExecCode(stmt)], lines[|lines| - 1]) == NoneValue("x\n")
    ensures Respond(py, s, code).1 == Answered(RStripChar(s.buffer, '\n'))
    ensures Respond(py, s, code).0.processOut == s.processOut + "x\n"
  {
    StatementsNotEmpty(code);
    assert s.buffer + Captured(Finished("")) == s.buffer;
  }

  // ---------------------------------------------------------------------------
  // The request loop

  /** How the worker's loop ends. */
  datatype WorkerEnd =
    | Stopped   // it received None
    | Waiting   // the queue ran dry: `get()` blocks
    | Died      // a snippet raised SystemExit

  /** How one request is handled: `Respond`, for the worker. */
  type Handler = (ConsoleState, string) -> (ConsoleState, Reply)

  function Responder(py: Python): Handler {
    (s, code) => Respond(py, s, code)
  }

  /** What the loop puts on the output queue for the requests `inputs`, and how it ends. */
  function ServeAll(handle: Handler, s: ConsoleState, inputs: seq<Option<string>>): (r: (seq<string>, WorkerEnd))
    ensures |r.0| <= FirstNone(inputs)
    decreases |inputs|
  {
    if inputs == [] then ([], Waiting)
    else match inputs[0]
      case None => ([], Stopped)
      case Some(code) =>
        var (s1, reply) := handle(s, code);
        if reply.Quit? then ([], Died)
        else
          var (outs, end) := ServeAll(handle, s1, inputs[1..]);
          ([reply.text] + outs, end)
  }

  /** The worker: a console whose helper code `setup` runs first, then the loop. */
  function Worker(py: Python, setup: string, inputs: seq<Option<string>>): (r: (seq<string>, WorkerEnd))
    ensures r.1 == Stopped ==> FirstNone(inputs) < |inputs| && |r.0| == FirstNone(inputs)
    ensures r.1 == Waiting ==> FirstNone(inputs) == |inputs| && |r.0| == |inputs|
  {
    var s0 := ConsoleState("", [], "", "");
    if py.execute([], setup).Exited? then ([], Died)
    else
      var s1 := RunSpec(py, s0, setup);
      OneAnswerPerRequest(Responder(py), s1, inputs);
      ServeAll(Responder(py), s1, inputs)
  }

  /** The answers `outs` given so far, followed by what the rest of the loop does. */
  function After(outs: seq<string>, rest: (seq<string>, WorkerEnd)): (seq<string>, WorkerEnd) {
    (outs + rest.0, rest.1)
  }

  /** `repl_worker`: the helper code runs first, then the loop serves the requests. */
  method ReplWorker(py: Python, setup: string, inputs: seq<Option<string>>) returns (outputs: seq<string>, end: WorkerEnd)
    ensures (outputs, end) == Worker(py, setup, inputs)
  {
    var console := new CapturingConsole(py);
    var exited := console.RunCode(setup);
    if exited {
      return [], Died;
    }
    assert console.State() == RunSpec(py, ConsoleState("", [], "", ""), setup);
    outputs, end := ServeLoop(console, Responder(py), inputs);
  }

  /** The `while True` loop: one snippet per request, until None. */
  method ServeLoop(console: CapturingConsole, ghost handle: Handler, inputs: seq<Option<string>>)
    returns (outputs: seq<string>, end: WorkerEnd)
    requires console.AtRest()
    requires handle == Responder(console.py)
    modifies console
    ensures outputs == ServeAll(handle, old(console.State()), inputs).0
    ensures end == ServeAll(handle, old(console.State()), inputs).1
  {
    ghost var all := ServeAll(handle, console.State(), inputs);
    ghost var rest := all;
    outputs := [];
    var i := 0;
    assert inputs[0..] == inputs;
    while true
      invariant 0 <= i <= |inputs|
      invariant console.AtRest()
      invariant rest == ServeAll(handle, console.State(), inputs[i..])
      invariant all.0 == outputs + rest.0 && all.1 == rest.1
      decreases |inputs| - i
    {
      if i == |inputs| {
        return outputs, Waiting;
      }
      var code := inputs[i];
      if code.None? {
        return outputs, Stopped;
      }
      ghost var later := inputs[i + 1..];
      assert inputs[i..] == [code] + later;
      var reply := ServeNext(console, handle, code.value, later);
      if reply.Quit? {
        return outputs, Died;
      }
      rest := ServeAll(handle, console.State(), later);
      outputs := outputs + [reply.text];
      i := i + 1;
    }
  }

  /** Serves one request; the loop's remaining work is then that of the requests behind it. */
  method ServeNext(console: CapturingConsole, ghost handle: Handler, code: string, ghost rest: seq<Option<string>>)
    returns (reply: Reply)
    requires console.AtRest()
    requires handle == Responder(console.py)
    modifies console
    ensures console.AtRest()
    ensures ServeAll(handle, old(console.State()), [Some(code)] + rest)
            == if reply.Quit? then ([], Died) else After([reply.text], ServeAll(handle, console.State(), rest))
  {
    ServeAllStep(handle, console.State(), code, rest);
    reply := Serve(console, code);
  }

  /** Serving one request, then the rest. */
  lemma ServeAllStep(handle: Handler, s: ConsoleState, code: string, rest: seq<Option<string>>)
    ensures var (s1, reply) := handle(s, code);
            ServeAll(handle, s, [Some(code)] + rest)
            == if reply.Quit? then ([], Died) else After([reply.text], ServeAll(handle, s1, rest))
  {
    assert ([Some(code)] + rest)[1..] == rest;
  }

  /** The position of the first None, or the length when there is none. */
  function FirstNone(inputs: seq<Option<string>>): (k: nat)
    ensures k <= |inputs|
  {
    if inputs == [] || inputs[0].None? then 0 else 1 + FirstNone(inputs[1..])
  }

  /** Every entry before `FirstNone` is a request, and the entry at it, if any, is None. */
  lemma {:induction false} FirstNoneIsFirst(inputs: seq<Option<string>>)
    ensures forall j :: 0 <= j < FirstNone(inputs) ==> inputs[j].Some?
    ensures FirstNone(inputs) < |inputs| ==> inputs[FirstNone(inputs)].None?
    decreases |inputs|
  {
    if inputs != [] && inputs[0].Some? {
      FirstNoneIsFirst(inputs[1..]);
    }
  }

  /**
    The loop answers every request before the first None exactly once, in
    order, unless a request exits the worker, and it stops exactly at the None.
  */
  lemma {:induction false} OneAnswerPerRequest(handle: Handler, s: ConsoleState, inputs: seq<Option<string>>)
    ensures var (outs, end) := ServeAll(handle, s, inputs);
            && (end == Stopped ==> FirstNone(inputs) < |inputs| && |outs| == FirstNone(inputs))
            && (end == Waiting ==> FirstNone(inputs) == |inputs| && |outs| == |inputs|)
            && (end == Died ==> |outs| < FirstNone(inputs))
    decreases |inputs|
  {
    if inputs != [] && inputs[0].Some? {
      var (s1, reply) := handle(s, inputs[0].value);
      OneAnswerPerRequest(handle, s1, inputs[1..]);
    }
  }

  /** Nothing after the first None is read: requests queued behind it change nothing. */
  lemma {:induction false} NothingReadAfterNone(handle: Handler, s: ConsoleState, inputs: seq<Option<string>>, rest: seq<Option<string>>)
    requires FirstNone(inputs) < |inputs|
    ensures ServeAll(handle, s, inputs[..FirstNone(inputs) + 1] + rest) == ServeAll(handle, s, inputs)
    decreases |inputs|
  {
    var k := FirstNone(inputs);
    var longer := inputs[..k + 1] + rest;
    assert longer[0] == inputs[0];
    if inputs[0].Some? {
      assert longer[1..] == inputs[1..][..FirstNone(inputs[1..]) + 1] + rest;
      var (s1, reply) := handle(s, inputs[0].value);
      NothingReadAfterNone(handle, s1, inputs[1..], rest);
    }
  }
}
