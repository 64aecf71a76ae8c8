/**
 * The REPL-like executor: one persistent namespace, a call counter that labels
 * every report, the rewrite that captures the value of a trailing bare
 * expression into a reserved slot, and the report that each call returns.
 *
 * `Run` is the reference reading of one call; `Executor.Execute` is the
 * step-by-step version that updates the object's fields, and is proved to do
 * what `Run` says.
 */
module Repl {
  import opened Wrappers
  import opened PyStr
  import opened Interp

  /** The reserved name the trailing expression's value is assigned to. */
  const ResultSlot: string := "_REPL_LAST_EXPR_VALUE_DO_NOT_USE_"
  /** The last-value binding, as in the interactive interpreter. */
  const LastValueName: string := "_"
  const LabelPrefix: string := "[Execution #"

  // ---------------------------------------------------------------------------
  // The last-expression rewrite

  /** A module body after the rewrite, and whether a value is to be captured. */
  datatype Rewrite = Rewrite(body: seq<Stmt>, capture: bool)

  /**
   * When the last top-level statement is a bare expression it becomes an
   * assignment of that same expression to `ResultSlot`; every other statement,
   * and every body not ending in an expression, is left as it is.
   */
  function CaptureRewrite(body: seq<Stmt>): (r: Rewrite)
    ensures |r.body| == |body|
    ensures r.capture <==> |body| > 0 && body[|body| - 1].Expr?
    ensures r.capture ==> r.body[..|body| - 1] == body[..|body| - 1]
    ensures r.capture ==> r.body[|body| - 1] == Assign(ResultSlot, body[|body| - 1].value)
    ensures !r.capture ==> r.body == body
  {
    if |body| > 0 && body[|body| - 1].Expr? then
      Rewrite(body[|body| - 1 := Assign(ResultSlot, body[|body| - 1].value)], true)
    else
      Rewrite(body, false)
  }

  /** Undoes a rewrite: the captured assignment goes back to a bare expression. */
  function Uncapture(r: Rewrite): seq<Stmt>
  {
    if r.capture && |r.body| > 0 && r.body[|r.body| - 1].Assign? then r.body[|r.body| - 1 := Expr(r.body[|r.body| - 1].value)] else r.body
  }

  /** The rewrite loses nothing: undoing it gives back the parsed body. */
  lemma RewriteRoundTrip(body: seq<Stmt>)
    ensures Uncapture(CaptureRewrite(body)) == body
  {
  }

  /** A rewritten body never ends in a bare expression, so rewriting twice changes nothing more. */
  lemma RewriteIdempotent(body: seq<Stmt>)
    ensures CaptureRewrite(CaptureRewrite(body).body) == Rewrite(CaptureRewrite(body).body, false)
  {
  }

  /** The rewrite as the executor performs it: the last element of the module body replaced in place. */
  method CaptureLastExpression(body: array<Stmt>) returns (capture: bool)
    modifies body
    ensures Rewrite(body[..], capture) == CaptureRewrite(old(body[..]))
  {
    capture := false;
    if body.Length > 0 && body[body.Length - 1].Expr? {
      var lastExpr := body[body.Length - 1].value;
      body[body.Length - 1] := Assign(ResultSlot, lastExpr);
      capture := true;
    }
  }

  // ---------------------------------------------------------------------------
  // The report

  /** The label of the `n`th call: `f"[Execution #{n}]"`. */
  function Label(n: nat): string
  {
    LabelPrefix + NatToDecimal(n) + "]"
  }

  /** The text of the value line: `repr(result)`, or nothing when the result is `None`. */
  function Shown(result: Value, repr: Value -> Rendering): string
    requires result != NoneValue ==> repr(result).Text?
  {
    if result != NoneValue then repr(result).text else ""
  }

  /**
   * The optional parts of a report, in order: the right-stripped standard
   * output when any was written, the `repr` of the result when it is not
   * `None` (falsy values included), and the right-stripped error text when
   * there is any.  The parts are only built once `repr` has returned.
   */
  function ReportParts(output: string, result: Value, error: string, repr: Value -> Rendering): (parts: seq<string>)
    requires result != NoneValue ==> repr(result).Text?
    ensures |parts| == (if output != "" then 1 else 0) + (if result != NoneValue then 1 else 0) + (if error != "" then 1 else 0)
    ensures output != "" ==> parts[0] == RStrip(output)
    ensures result != NoneValue ==> parts[if output != "" then 1 else 0] == repr(result).text
    ensures error != "" ==> parts[|parts| - 1] == RStrip(error)
  {
    (if output != "" then [RStrip(output)] else [])
    + (if result != NoneValue then [Shown(result, repr)] else [])
    + (if error != "" then [RStrip(error)] else [])
  }

  /** The label, then the parts joined by newlines; the label alone when there are none. */
  function FormatReport(n: nat, parts: seq<string>): (report: string)
    ensures Label(n) <= report
    ensures parts == [] ==> report == Label(n)
  {
    if parts != [] then Label(n) + "\n" + Join("\n", parts) else Label(n)
  }

  /** A report line that is present only when `present` holds. */
  function Line(present: bool, text: string): string
  {
    if present then "\n" + text else ""
  }

  /** One more part adds a newline and that part to the end of the report. */
  lemma FormatAppend(n: nat, parts: seq<string>, p: string)
    ensures FormatReport(n, parts + [p]) == FormatReport(n, parts) + "\n" + p
  {
    if parts != [] {
      JoinAppend("\n", parts, p);
    }
  }

  /** An optional part adds its line, or nothing, to the end of the report. */
  lemma FormatMaybeAppend(n: nat, parts: seq<string>, present: bool, p: string)
    ensures FormatReport(n, if present then parts + [p] else parts) == FormatReport(n, parts) + Line(present, p)
  {
    if present {
      FormatAppend(n, parts, p);
    }
  }

  /** An absent line contributes nothing. */
  lemma DropEmpty(head: string, tail: string)
    ensures head + "" + tail == head + tail
  {
  }

  /** The complete layout of a report: the label, then one newline-led line per present part. */
  lemma ReportLayout(n: nat, output: string, result: Value, error: string, repr: Value -> Rendering)
    requires result != NoneValue ==> repr(result).Text?
    ensures FormatReport(n, ReportParts(output, result, error, repr))
         == Label(n)
            + Line(output != "", RStrip(output))
            + Line(result != NoneValue, Shown(result, repr))
            + Line(error != "", RStrip(error))
  {
    var p1: seq<string> := if output != "" then [] + [RStrip(output)] else [];
    FormatMaybeAppend(n, [], output != "", RStrip(output));
    var p2 := if result != NoneValue then p1 + [Shown(result, repr)] else p1;
    FormatMaybeAppend(n, p1, result != NoneValue, Shown(result, repr));
    var p3 := if error != "" then p2 + [RStrip(error)] else p2;
    FormatMaybeAppend(n, p2, error != "", RStrip(error));
    assert p3 == ReportParts(output, result, error, repr);
  }

  /** The count a report is labelled with, read back from its first line. */
  function ReadCount(report: string): Option<nat>
  {
    if |report| < |LabelPrefix| || report[..|LabelPrefix|] != LabelPrefix then None
    else
      var rest := report[|LabelPrefix|..];
      var k := DigitRun(rest);
      if 0 < k < |rest| && rest[k] == ']' then Some(DecimalValue(rest[..k])) else None
  }

  /** Whatever follows the label, the label gives back the count it was made from. */
  lemma {:induction false} LabelReadBack(n: nat, tail: string)
    ensures ReadCount(Label(n) + tail) == Some(n)
  {
    var d := NatToDecimal(n);
    var report := Label(n) + tail;
    assert report == LabelPrefix + (d + ("]" + tail));
    assert report[..|LabelPrefix|] == LabelPrefix;
    var rest := report[|LabelPrefix|..];
    assert rest == d + ("]" + tail);
    DigitRunOf(d, "]" + tail);
    assert rest[..|d|] == d;
    assert rest[|d|] == ']';
    DecimalRoundTrip(n);
  }

  /** Every report names the call it came from. */
  lemma ReportCountRoundTrip(n: nat, parts: seq<string>)
    ensures ReadCount(FormatReport(n, parts)) == Some(n)
  {
    var r := FormatReport(n, parts);
    assert r == Label(n) + r[|Label(n)|..];
    LabelReadBack(n, r[|Label(n)|..]);
  }

  /** Two calls with different counts never share a label. */
  lemma LabelsDistinct(m: nat, n: nat)
    requires m != n
    ensures Label(m) != Label(n)
  {
    LabelReadBack(m, "");
    LabelReadBack(n, "");
    assert Label(m) + "" == Label(m) && Label(n) + "" == Label(n);
  }

  /** Concrete labels, as the f-string renders them. */
  lemma LabelExamples()
    ensures Label(1) == "[Execution #1]"
    ensures Label(42) == "[Execution #42]"
  {
  }

  // ---------------------------------------------------------------------------
  // One call, as a function of the namespace before it

  /** What the guarded body of a call leaves: the namespace, the captured texts and `result_value`. */
  datatype Evaluation = Evaluation(globals: Globals, output: string, error: string, result: Value)

  /**
   * Parse, rewrite, compile, execute, and on a capturing run that bound the
   * slot move the value out of the slot into `_`.  A parse or compile failure
   * executes nothing; a runtime fault keeps the namespace as the fault left it.
   */
  function Evaluate(globals: Globals, code: string, py: Interpreter): Evaluation
  {
    match py.parse(code)
    case SyntaxError(tb) => Evaluation(globals, "", tb, NoneValue)
    case Module(body) =>
      var rw := CaptureRewrite(body);
      match py.compile(rw.body)
      case Some(tb) => Evaluation(globals, "", tb, NoneValue)
      case None =>
        var out := py.exec(rw.body, globals);
        if out.fault.Some? then
          Evaluation(out.globals, out.stdout, out.stderr + out.fault.value, NoneValue)
        else if rw.capture && ResultSlot in out.globals then
          var v := out.globals[ResultSlot];
          Evaluation((out.globals - {ResultSlot})[LastValueName := v], out.stdout, out.stderr, v)
        else
          Evaluation(out.globals, out.stdout, out.stderr, NoneValue)
  }

  /**
   * How a call ends: it returns its report, or an exception escapes it.  The
   * only exception that escapes is one raised by `repr(result_value)`, which
   * runs after the guarded body.
   */
  datatype CallResult = Report(text: string) | Raised(traceback: string)

  /** The namespace after a call and how the call ended. */
  datatype Step = Step(globals: Globals, reply: CallResult)

  /** The value line of `e` is due and rendering it raises. */
  predicate ReprRaises(e: Evaluation, repr: Value -> Rendering)
  {
    e.result != NoneValue && repr(e.result).ReprFault?
  }

  /** The call numbered `count` (the counter already bumped) on namespace `globals`. */
  function Run(count: nat, globals: Globals, code: string, py: Interpreter): Step
  {
    if Strip(code) == [] then Step(globals, Report(Label(count)))
    else
      var e := Evaluate(globals, code, py);
      if ReprRaises(e, py.repr) then Step(e.globals, Raised(py.repr(e.result).traceback))
      else Step(e.globals, Report(FormatReport(count, ReportParts(e.output, e.result, e.error, py.repr))))
  }

  /** Whitespace-only input reports the bare label and touches nothing. */
  lemma BlankCall(count: nat, globals: Globals, code: string, py: Interpreter)
    requires IsBlank(code)
    ensures Run(count, globals, code, py) == Step(globals, Report(Label(count)))
  {
    StripEmptyIffBlank(code);
  }

  /**
   * Any other input is parsed and evaluated.  When the value line is due and
   * its `repr` raises, that exception escapes the call; otherwise the report is
   * the label followed by the output, value and error lines that are present.
   */
  lemma NonBlankCall(count: nat, globals: Globals, code: string, py: Interpreter)
    requires !IsBlank(code)
    ensures Run(count, globals, code, py).globals == Evaluate(globals, code, py).globals
    ensures var e := Evaluate(globals, code, py);
            ReprRaises(e, py.repr) ==> Run(count, globals, code, py).reply == Raised(py.repr(e.result).traceback)
    ensures var e := Evaluate(globals, code, py);
            !ReprRaises(e, py.repr) ==>
              Run(count, globals, code, py).reply
              == Report(Label(count) + Line(e.output != "", RStrip(e.output))
                        + Line(e.result != NoneValue, Shown(e.result, py.repr)) + Line(e.error != "", RStrip(e.error)))
  {
    StripEmptyIffBlank(code);
    var e := Evaluate(globals, code, py);
    if !ReprRaises(e, py.repr) {
      ReportLayout(count, e.output, e.result, e.error, py.repr);
    }
  }

  /** A call raises exactly when its code is not blank, its value line is due, and `repr` raises. */
  lemma RaisesOnlyThroughRepr(count: nat, globals: Globals, code: string, py: Interpreter)
    ensures Run(count, globals, code, py).reply.Raised?
            <==> !IsBlank(code) && ReprRaises(Evaluate(globals, code, py), py.repr)
  {
    StripEmptyIffBlank(code);
  }

  /** An evaluation without a value to show gives the label, then its output and error lines. */
  lemma NoValueCall(count: nat, globals: Globals, code: string, py: Interpreter)
    requires !IsBlank(code) && Evaluate(globals, code, py).result == NoneValue
    ensures Run(count, globals, code, py).globals == Evaluate(globals, code, py).globals
    ensures var e := Evaluate(globals, code, py);
            Run(count, globals, code, py).reply
            == Report(Label(count) + Line(e.output != "", RStrip(e.output)) + Line(e.error != "", RStrip(e.error)))
  {
    var e := Evaluate(globals, code, py);
    NonBlankCall(count, globals, code, py);
    var head := Label(count) + Line(e.output != "", RStrip(e.output));
    assert Line(e.result != NoneValue, Shown(e.result, py.repr)) == "";
    DropEmpty(head, Line(e.error != "", RStrip(e.error)));
  }

  /** A syntax error executes nothing: the namespace is unchanged and the report is the label and the error text. */
  lemma SyntaxErrorCall(count: nat, globals: Globals, code: string, py: Interpreter)
    requires !IsBlank(code) && py.parse(code).SyntaxError?
    ensures Run(count, globals, code, py).globals == globals
    ensures var tb := py.parse(code).traceback;
            Run(count, globals, code, py).reply == Report(Label(count) + Line(tb != "", RStrip(tb)))
  {
    var tb := py.parse(code).traceback;
    assert Evaluate(globals, code, py) == Evaluation(globals, "", tb, NoneValue);
    NoValueCall(count, globals, code, py);
    DropEmpty(Label(count), Line(tb != "", RStrip(tb)));
  }

  /** A module that parses but does not compile executes nothing either. */
  lemma CompileErrorCall(count: nat, globals: Globals, code: string, py: Interpreter)
    requires !IsBlank(code) && py.parse(code).Module?
    requires py.compile(CaptureRewrite(py.parse(code).body).body).Some?
    ensures Run(count, globals, code, py).globals == globals
    ensures var tb := py.compile(CaptureRewrite(py.parse(code).body).body).value;
            Run(count, globals, code, py).reply == Report(Label(count) + Line(tb != "", RStrip(tb)))
  {
    var tb := py.compile(CaptureRewrite(py.parse(code).body).body).value;
    assert Evaluate(globals, code, py) == Evaluation(globals, "", tb, NoneValue);
    NoValueCall(count, globals, code, py);
    DropEmpty(Label(count), Line(tb != "", RStrip(tb)));
  }

  /**
   * A runtime fault is reported, not raised: the namespace stays as the fault
   * left it (no rollback, no `_` update), no value line appears, and the
   * traceback follows whatever the program wrote to standard error.
   */
  lemma RuntimeFaultCall(count: nat, globals: Globals, code: string, py: Interpreter)
    requires !IsBlank(code) && py.parse(code).Module?
    requires py.compile(CaptureRewrite(py.parse(code).body).body).None?
    requires py.exec(CaptureRewrite(py.parse(code).body).body, globals).fault.Some?
    ensures Run(count, globals, code, py).globals == py.exec(CaptureRewrite(py.parse(code).body).body, globals).globals
    ensures var out := py.exec(CaptureRewrite(py.parse(code).body).body, globals);
            var error := out.stderr + out.fault.value;
            Run(count, globals, code, py).reply
            == Report(Label(count) + Line(out.stdout != "", RStrip(out.stdout)) + Line(error != "", RStrip(error)))
  {
    var out := py.exec(CaptureRewrite(py.parse(code).body).body, globals);
    var e := Evaluate(globals, code, py);
    var error := out.stderr + out.fault.value;
    assert e == Evaluation(out.globals, out.stdout, error, NoneValue);
    NonBlankCall(count, globals, code, py);
    var head := Label(count) + Line(out.stdout != "", RStrip(out.stdout));
    assert Run(count, globals, code, py).reply.text == head + "" + Line(error != "", RStrip(error));
    DropEmpty(head, Line(error != "", RStrip(error)));
  }

  /**
   * A program ending in a bare expression that ran to completion: the slot is
   * gone from the namespace, `_` holds the captured value, every other name is
   * as the program left it.  The value line is present exactly when the value
   * is not `None`; when its `repr` raises, the call raises, with the namespace
   * already updated.
   */
  lemma CapturedValueCall(count: nat, globals: Globals, code: string, py: Interpreter)
    requires !IsBlank(code) && py.parse(code).Module?
    requires var body := py.parse(code).body; |body| > 0 && body[|body| - 1].Expr?
    requires py.compile(CaptureRewrite(py.parse(code).body).body).None?
    requires var out := py.exec(CaptureRewrite(py.parse(code).body).body, globals);
             out.fault.None? && ResultSlot in out.globals
    ensures var out := py.exec(CaptureRewrite(py.parse(code).body).body, globals);
            var v := out.globals[ResultSlot];
            var s := Run(count, globals, code, py);
            && ResultSlot !in s.globals
            && LastValueName in s.globals && s.globals[LastValueName] == v
            && (forall k :: k != ResultSlot && k != LastValueName ==>
                  (k in s.globals <==> k in out.globals) && (k in s.globals ==> s.globals[k] == out.globals[k]))
    ensures var out := py.exec(CaptureRewrite(py.parse(code).body).body, globals);
            var v := out.globals[ResultSlot];
            v != NoneValue && py.repr(v).ReprFault? ==> Run(count, globals, code, py).reply == Raised(py.repr(v).traceback)
    ensures var out := py.exec(CaptureRewrite(py.parse(code).body).body, globals);
            var v := out.globals[ResultSlot];
            (v == NoneValue || py.repr(v).Text?) ==>
              Run(count, globals, code, py).reply
              == Report(Label(count) + Line(out.stdout != "", RStrip(out.stdout))
                        + Line(v != NoneValue, Shown(v, py.repr)) + Line(out.stderr != "", RStrip(out.stderr)))
  {
    var out := py.exec(CaptureRewrite(py.parse(code).body).body, globals);
    var v := out.globals[ResultSlot];
    assert Evaluate(globals, code, py) == Evaluation((out.globals - {ResultSlot})[LastValueName := v], out.stdout, out.stderr, v);
    NonBlankCall(count, globals, code, py);
  }

  /**
   * A program that does not end in a bare expression never has a value line
   * and never touches the slot or `_`: the namespace is the program's own.
   */
  lemma NoTrailingExpressionCall(count: nat, globals: Globals, code: string, py: Interpreter)
    requires !IsBlank(code) && py.parse(code).Module?
    requires var body := py.parse(code).body; body == [] || !body[|body| - 1].Expr?
    requires py.compile(py.parse(code).body).None?
    ensures Run(count, globals, code, py).globals == py.exec(py.parse(code).body, globals).globals
    ensures var out := py.exec(py.parse(code).body, globals);
            var error := out.stderr + (if out.fault.Some? then out.fault.value else "");
            Run(count, globals, code, py).reply
            == Report(Label(count) + Line(out.stdout != "", RStrip(out.stdout)) + Line(error != "", RStrip(error)))
  {
    var out := py.exec(py.parse(code).body, globals);
    var error := out.stderr + (if out.fault.Some? then out.fault.value else "");
    var e := Evaluate(globals, code, py);
    assert e == Evaluation(out.globals, out.stdout, error, NoneValue);
    NonBlankCall(count, globals, code, py);
    var head := Label(count) + Line(out.stdout != "", RStrip(out.stdout));
    assert Run(count, globals, code, py).reply.text == head + "" + Line(error != "", RStrip(error));
    DropEmpty(head, Line(error != "", RStrip(error)));
  }

  /** Every report a call returns, blank or not, is labelled with that call's count. */
  lemma RunLabelled(count: nat, globals: Globals, code: string, py: Interpreter)
    ensures var s := Run(count, globals, code, py);
            s.reply.Report? ==> ReadCount(s.reply.text) == Some(count)
  {
    if Strip(code) == [] {
      LabelReadBack(count, "");
      assert Label(count) + "" == Label(count);
    } else {
      var e := Evaluate(globals, code, py);
      if !ReprRaises(e, py.repr) {
        ReportCountRoundTrip(count, ReportParts(e.output, e.result, e.error, py.repr));
      }
    }
  }

  /**
   * The corrected reading: a `repr` that raises is reported like every other
   * fault, its traceback after the error text and no value line, instead of
   * escaping the call.
   */
  function ReportedRun(count: nat, globals: Globals, code: string, py: Interpreter): Step
  {
    if Strip(code) == [] then Step(globals, Report(Label(count)))
    else
      var e := Evaluate(globals, code, py);
      if ReprRaises(e, py.repr) then
        Step(e.globals, Report(FormatReport(count, ReportParts(e.output, NoneValue, e.error + py.repr(e.result).traceback, py.repr))))
      else Run(count, globals, code, py)
  }

  /**
   * The corrected call always returns a report, leaves the same namespace as
   * the call as written, and agrees with it whenever that call returns.
   */
  lemma ReportedRunAlwaysReports(count: nat, globals: Globals, code: string, py: Interpreter)
    ensures ReportedRun(count, globals, code, py).reply.Report?
    ensures ReportedRun(count, globals, code, py).globals == Run(count, globals, code, py).globals
    ensures Run(count, globals, code, py).reply.Report? ==> ReportedRun(count, globals, code, py) == Run(count, globals, code, py)
    ensures ReadCount(ReportedRun(count, globals, code, py).reply.text) == Some(count)
  {
    RunLabelled(count, globals, code, py);
    if Strip(code) != [] {
      var e := Evaluate(globals, code, py);
      if ReprRaises(e, py.repr) {
        ReportCountRoundTrip(count, ReportParts(e.output, NoneValue, e.error + py.repr(e.result).traceback, py.repr));
      }
    }
  }

  /** The seed of the namespace, as `python` has it at start-up. */
  const StartupNamespace: Globals :=
    map["__name__" := Str("__main__"), "__package__" := NoneValue, "__builtins__" := BuiltinsModule]

  // ---------------------------------------------------------------------------
  // The executor object

  /** One persistent namespace and the number of calls made so far. */
  class Executor {
    var globals: Globals
    var executionCount: nat

    /** A fresh namespace seeded like `python` at start-up, and no calls yet. */
    constructor ()
      ensures executionCount == 0
      ensures globals == StartupNamespace
      ensures globals.Keys == {"__name__", "__package__", "__builtins__"}
      ensures globals["__name__"] == Str("__main__")
      ensures globals["__package__"] == NoneValue
      ensures globals["__builtins__"] == BuiltinsModule
    {
      var seed: Globals := map[];
      seed := seed["__name__" := Str("__main__")];
      seed := seed["__package__" := NoneValue];
      seed := seed["__builtins__" := BuiltinsModule];
      globals := seed;
      executionCount := 0;
    }

    /**
     * The guarded body of a call (the `try` block with its handlers): parse,
     * rewrite in place, compile, execute, and move a captured value into `_`.
     * Every failure is turned into error text; the namespace is left as
     * `Evaluate` says.
     */
    method EvaluateGuarded(code: string, py: Interpreter) returns (stdout: string, stderr: string, resultValue: Value)
      modifies this
      ensures executionCount == old(executionCount)
      ensures Evaluation(globals, stdout, stderr, resultValue) == Evaluate(old(globals), code, py)
    {
      stdout, stderr := "", "";
      resultValue := NoneValue;
      match py.parse(code) {
        case SyntaxError(tb) =>
          stderr := stderr + tb;
          assert stderr == tb;
        case Module(body) =>
          var moduleBody := new Stmt[|body|](i requires 0 <= i < |body| => body[i]);
          assert moduleBody[..] == body;
          var captureResult := CaptureLastExpression(moduleBody);
          match py.compile(moduleBody[..]) {
            case Some(tb) =>
              stderr := stderr + tb;
              assert stderr == tb;
            case None =>
              var out := py.exec(moduleBody[..], globals);
              globals := out.globals;
              stdout, stderr := stdout + out.stdout, stderr + out.stderr;
              assert stdout == out.stdout && stderr == out.stderr;
              match out.fault {
                case Some(tb) =>
                  stderr := stderr + tb;
                case None =>
                  if captureResult && ResultSlot in globals {
                    resultValue := globals[ResultSlot];
                    globals := globals - {ResultSlot};
                    globals := globals[LastValueName := resultValue];
                  }
              }
          }
      }
    }

    /**
     * Runs `code` on the namespace: the counter goes up by exactly one on every
     * call, blank ones included, and the namespace and the report (or the
     * exception that escapes) are those `Run` gives for that count.
     */
    method Execute(code: string, py: Interpreter) returns (reply: CallResult)
      modifies this
      ensures executionCount == old(executionCount) + 1
      ensures Step(globals, reply) == Run(executionCount, old(globals), code, py)
    {
      executionCount := executionCount + 1;
      if Strip(code) == [] {
        return Report(Label(executionCount));
      }
      var stdout, stderr, resultValue := EvaluateGuarded(code, py);
      ghost var e := Evaluation(globals, stdout, stderr, resultValue);
      var parts: seq<string> := [];
      if stdout != "" {
        parts := parts + [RStrip(stdout)];
      }
      if resultValue != NoneValue {
        var rendered := py.repr(resultValue);
        if rendered.ReprFault? {
          assert ReprRaises(e, py.repr);
          return Raised(rendered.traceback);
        }
        parts := parts + [rendered.text];
      }
      assert parts == (if stdout != "" then [RStrip(stdout)] else []) + (if resultValue != NoneValue then [Shown(resultValue, py.repr)] else []);
      if stderr != "" {
        parts := parts + [RStrip(stderr)];
      }
      assert parts == ReportParts(stdout, resultValue, stderr, py.repr);
      assert !ReprRaises(e, py.repr);
      if parts != [] {
        reply := Report(Label(executionCount) + "\n" + Join("\n", parts));
      } else {
        reply := Report(Label(executionCount));
      }
    }
  }
}
