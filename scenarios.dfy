/**
 * Concrete sessions: a four-call session (a binding, a value, a blank call,
 * the last value read back through `_`), a trailing `print()`,
 * and a value whose `__repr__` raises.  Each holds for every interpreter that
 * does what Python does on the few statements involved.
 */
module Scenarios {
  import opened Wrappers
  import opened PyStr
  import opened Interp
  import opened Repl

  const BindX: Stmt := Assign("x", Expression("5"))
  const XPlusOne: Expression := Expression("x + 1")
  const LastValue: Expression := Expression("_")
  const PrintCall: Expression := Expression("print()")
  const MakeA: Expression := Expression("A()")

  /** The namespace after `x = 5` on a fresh executor. */
  const AfterBind: Globals := StartupNamespace["x" := Int(5)]
  /** The namespace after `x + 1` follows. */
  const AfterValue: Globals := AfterBind[LastValueName := Int(6)]

  /** The slot is not among the names the four-call session binds. */
  lemma SlotUnbound()
    ensures ResultSlot !in AfterBind && ResultSlot !in AfterValue
  {
    assert AfterValue.Keys == AfterBind.Keys + {LastValueName};
    assert AfterBind.Keys == {"__name__", "__package__", "__builtins__", "x"};
    assert |ResultSlot| == 33;
  }

  /** The labels and value reports of the four-call session, spelled out. */
  lemma ExampleLabels()
    ensures Label(1) == "[Execution #1]" && Label(3) == "[Execution #3]"
    ensures Label(2) + "\n" + "6" == "[Execution #2]\n6"
    ensures Label(4) + "\n" + "6" == "[Execution #4]\n6"
  {
  }

  /** A trailing expression that yields `v`: `_` is rebound to it and the slot is gone. */
  lemma CaptureCall(count: nat, g: Globals, code: string, e: Expression, v: Value, py: Interpreter)
    requires |code| > 0 && !IsSpace(code[0]) && ResultSlot !in g
    requires py.parse(code) == Module([Expr(e)]) && py.compile([Assign(ResultSlot, e)]) == None
    requires py.exec([Assign(ResultSlot, e)], g) == ExecOutcome(g[ResultSlot := v], "", "", None)
    ensures Run(count, g, code, py).globals == g[LastValueName := v]
    ensures v != NoneValue && py.repr(v).ReprFault? ==> Run(count, g, code, py).reply == Raised(py.repr(v).traceback)
    ensures v != NoneValue && py.repr(v).Text? ==> Run(count, g, code, py).reply == Report(Label(count) + "\n" + py.repr(v).text)
  {
    assert CaptureRewrite([Expr(e)]).body == [Assign(ResultSlot, e)];
    CapturedValueCall(count, g, code, py);
    assert (g[ResultSlot := v] - {ResultSlot})[LastValueName := v] == g[LastValueName := v];
    if v != NoneValue && py.repr(v).Text? {
      DropEmpty(Label(count), Line(true, py.repr(v).text));
      DropEmpty(Label(count) + Line(true, py.repr(v).text), "");
    }
  }

  /** Call 1, `x = 5`: no value line, and `x` is bound. */
  lemma BindCall(py: Interpreter)
    requires py.parse("x = 5") == Module([BindX]) && py.compile([BindX]) == None
    requires py.exec([BindX], StartupNamespace) == ExecOutcome(AfterBind, "", "", None)
    ensures Run(1, StartupNamespace, "x = 5", py).globals == AfterBind
    ensures Run(1, StartupNamespace, "x = 5", py).reply == Report("[Execution #1]")
  {
    ExampleLabels();
    assert !IsSpace("x = 5"[0]);
    NoTrailingExpressionCall(1, StartupNamespace, "x = 5", py);
    DropEmpty(Label(1), "");
  }

  /** Call 2, `x + 1`: the report shows 6, and `_` becomes 6. */
  lemma ValueCall(py: Interpreter)
    requires py.parse("x + 1") == Module([Expr(XPlusOne)]) && py.compile([Assign(ResultSlot, XPlusOne)]) == None
    requires py.exec([Assign(ResultSlot, XPlusOne)], AfterBind) == ExecOutcome(AfterBind[ResultSlot := Int(6)], "", "", None)
    requires py.repr(Int(6)) == Text("6")
    ensures Run(2, AfterBind, "x + 1", py).globals == AfterValue
    ensures Run(2, AfterBind, "x + 1", py).reply == Report("[Execution #2]\n6")
  {
    SlotUnbound();
    ExampleLabels();
    CaptureCall(2, AfterBind, "x + 1", XPlusOne, Int(6), py);
  }

  /** Call 4, `_` (any code that parses to the bare name `_`): the last value is shown again and stays bound. */
  lemma LastValueCall(code: string, g: Globals, py: Interpreter)
    requires |code| > 0 && !IsSpace(code[0])
    requires LastValueName in g && g[LastValueName] == Int(6) && ResultSlot !in g
    requires py.parse(code) == Module([Expr(LastValue)]) && py.compile([Assign(ResultSlot, LastValue)]) == None
    requires py.exec([Assign(ResultSlot, LastValue)], g) == ExecOutcome(g[ResultSlot := Int(6)], "", "", None)
    requires py.repr(Int(6)) == Text("6")
    ensures Run(4, g, code, py).globals == g
    ensures Run(4, g, code, py).reply == Report("[Execution #4]\n6")
  {
    CaptureCall(4, g, code, LastValue, Int(6), py);
    assert g[LastValueName := Int(6)] == g;
    ExampleLabels();
  }

  /**
   * A four-call session: `x = 5`, `x + 1`, an empty call and `_` on a fresh
   * namespace report `[Execution #1]`, `[Execution #2]\n6`, `[Execution #3]`
   * and `[Execution #4]\n6`; afterwards `x` is 5, `_` is 6 and the slot is not
   * left behind.  The fourth call's code is `lastCode`, which parses to the
   * bare name `_`.
   */
  lemma FourCallSession(lastCode: string, py: Interpreter)
    requires |lastCode| > 0 && !IsSpace(lastCode[0])
    requires py.parse("x = 5") == Module([BindX]) && py.compile([BindX]) == None
    requires py.exec([BindX], StartupNamespace) == ExecOutcome(AfterBind, "", "", None)
    requires py.parse("x + 1") == Module([Expr(XPlusOne)]) && py.compile([Assign(ResultSlot, XPlusOne)]) == None
    requires py.exec([Assign(ResultSlot, XPlusOne)], AfterBind) == ExecOutcome(AfterBind[ResultSlot := Int(6)], "", "", None)
    requires py.parse(lastCode) == Module([Expr(LastValue)]) && py.compile([Assign(ResultSlot, LastValue)]) == None
    requires py.exec([Assign(ResultSlot, LastValue)], AfterValue) == ExecOutcome(AfterValue[ResultSlot := Int(6)], "", "", None)
    requires py.repr(Int(6)) == Text("6")
    ensures var s1 := Run(1, StartupNamespace, "x = 5", py);
            var s2 := Run(2, s1.globals, "x + 1", py);
            var s3 := Run(3, s2.globals, "", py);
            var s4 := Run(4, s3.globals, lastCode, py);
            && s1.reply == Report("[Execution #1]")
            && s2.reply == Report("[Execution #2]\n6")
            && s3.reply == Report("[Execution #3]")
            && s4.reply == Report("[Execution #4]\n6")
            && s4.globals == AfterValue
            && AfterValue["x"] == Int(5) && AfterValue[LastValueName] == Int(6)
            && ResultSlot !in s4.globals
  {
    BindCall(py);
    ValueCall(py);
    BlankCall(3, AfterValue, "", py);
    SlotUnbound();
    assert AfterValue[LastValueName] == Int(6);
    LastValueCall(lastCode, AfterValue, py);
    ExampleLabels();
  }

  /**
   * A trailing `print()` captures `None`: only a newline was written, so the
   * report is the label and one empty line, and `_` is rebound to `None`.
   */
  lemma PrintCallExample(count: nat, g: Globals, py: Interpreter)
    requires ResultSlot !in g
    requires py.parse("print()") == Module([Expr(PrintCall)]) && py.compile([Assign(ResultSlot, PrintCall)]) == None
    requires py.exec([Assign(ResultSlot, PrintCall)], g) == ExecOutcome(g[ResultSlot := NoneValue], "\n", "", None)
    ensures Run(count, g, "print()", py).reply == Report(Label(count) + "\n")
    ensures Run(count, g, "print()", py).globals == g[LastValueName := NoneValue]
  {
    assert !IsSpace("print()"[0]);
    assert CaptureRewrite([Expr(PrintCall)]).body == [Assign(ResultSlot, PrintCall)];
    CapturedValueCall(count, g, "print()", py);
    assert (g[ResultSlot := NoneValue] - {ResultSlot})[LastValueName := NoneValue] == g[LastValueName := NoneValue];
    assert RStrip("\n") == "";
    DropEmpty(Label(count) + Line(true, ""), "");
  }

  /**
   * `A()`, where `A.__repr__` raises: the call as written raises instead of
   * reporting, after `_` has already been rebound; the corrected call reports
   * the traceback on the error line.
   */
  lemma ReprEscapeExample(count: nat, g: Globals, py: Interpreter, a: Value, tb: string)
    requires ResultSlot !in g && a != NoneValue && tb != "" && RStrip(tb) == tb
    requires py.parse("A()") == Module([Expr(MakeA)]) && py.compile([Assign(ResultSlot, MakeA)]) == None
    requires py.exec([Assign(ResultSlot, MakeA)], g) == ExecOutcome(g[ResultSlot := a], "", "", None)
    requires py.repr(a) == ReprFault(tb)
    ensures Run(count, g, "A()", py) == Step(g[LastValueName := a], Raised(tb))
    ensures ReportedRun(count, g, "A()", py) == Step(g[LastValueName := a], Report(Label(count) + "\n" + tb))
  {
    assert !IsSpace("A()"[0]);
    StripEmptyIffBlank("A()");
    CaptureCall(count, g, "A()", MakeA, a, py);
    assert CaptureRewrite([Expr(MakeA)]).body == [Assign(ResultSlot, MakeA)];
    var e := Evaluate(g, "A()", py);
    assert e.result == a && e.output == "" && e.error == "";
    var parts := ReportParts("", NoneValue, "" + tb, py.repr);
    assert "" + tb == tb;
    assert |parts| == 1 && parts[0] == tb;
    assert parts == [tb];
  }
}
