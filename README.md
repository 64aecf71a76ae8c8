# Stateful Python executor — Dafny model

This project models the REPL-like Python tool of `gpt_oss/tools/python_stateful.py`.

A `StatefulPythonExecutor` owns two things:

- one persistent namespace, `globals`;
- a call counter, `execution_count`.

Each `execute(code)` call does these steps in order:

1. It bumps the counter.
2. It answers whitespace-only code with the bare label `[Execution #n]`.
3. It parses the code.
4. It rewrites a trailing bare expression statement into an assignment to the reserved slot `_REPL_LAST_EXPR_VALUE_DO_NOT_USE_`.
5. It compiles and executes the module against the namespace.
6. On a capturing run, it pops the slot and rebinds `_` to that value.
7. It returns the label, followed by the present parts joined by newlines: the right-stripped standard output, the `repr` of the value when it is not `None`, and the right-stripped error text.

The tool adapter `StatefulPythonTool._process` takes the text of the first content part. Empty text gets `"Error: No code provided"` and the executor is not called. Any other text goes to `execute`.

Python's own machinery is an `Interpreter` value passed to each call: `ast.parse`, `compile`, `exec` and `repr`. The model states what the executor does with whatever that interpreter returns.

Files and modules:

- `wrappers.dfy` (`Wrappers`): the `Option` datatype.
- `pystr.dfy` (`PyStr`): the `str` built-ins used: `isspace`, `strip`, `rstrip`, `"\n".join` and `str(n)`.
- `interp.dfy` (`Interp`): values, statements, parse and exec outcomes, and the `Interpreter` record.
- `repl.dfy` (`Repl`): the rewrite, the report, the reference function `Run` for one call, and the class `Executor`.
- `adapter.dfy` (`Adapter`): messages, the dispatch rule, and the class `PythonTool`.
- `scenarios.dfy` (`Scenarios`): concrete sessions. These are a four-call session (`x = 5`, `x + 1`, an empty call, then `_`), a trailing `print()`, and a value whose `repr` raises. Each holds for any interpreter that does what Python does on the statements involved.

`Repl.Run` is the reference reading of one call, built on `Repl.Evaluate`, which covers the guarded parse/compile/exec body. `Repl.Executor.Execute` performs the call step by step on the object's fields. It is proved equal to `Run`, the exception that escapes included, and the properties of `Run` are proved as lemmas.

Four behaviours of the code are easy to misread, and the model keeps each of them as written:

- The code rebinds `_` whenever the slot was bound, with the comment "Set _ like the REPL does". The interactive interpreter leaves `_` alone when the value is `None`. This code does not: `_` becomes `None` after a trailing `print(...)`. `Repl.CapturedValueCall` states it: `_` holds the captured value, `None` included. Only the value line in the report is suppressed for `None`.
- Besides parse failures and runtime faults there is a third failure path. `compile` can raise after `ast.parse` succeeded, for example on `return` outside a function. The outer `except Exception` catches it, and nothing runs. This path is `Repl.CompileErrorCall`.
- The stdout part is added when the raw output is non-empty, before stripping. So output consisting only of a newline yields an empty line after the label. `Repl.ReportParts` and `Repl.ReportLayout` keep this behaviour.
- `repr(result_value)` runs after the guarded `try` block. When a user-defined `__repr__` raises, the exception escapes `execute`. By then the counter has been bumped, the slot popped and `_` rebound. The model gives `repr` a failure result, and a call ends either with a `Report` or with `Raised`. `Repl.RaisesOnlyThroughRepr` proves that this is the only way a call raises. See "## Findings".

## Model

| member | source | states |
|---|---|---|
| `Repl.Executor.constructor` | gpt_oss/tools/python_stateful.py:23-29 | a fresh executor has count 0 and a namespace holding exactly `__name__` = `"__main__"`, `__package__` = `None` and `__builtins__` |
| `Repl.Executor.Execute` | gpt_oss/tools/python_stateful.py:31-110 | every call raises the counter by exactly one, blank input included; the new namespace and the report, or the exception that escapes, are those of `Run` for the new count |
| `Repl.Executor.EvaluateGuarded` | gpt_oss/tools/python_stateful.py:48-91 | the guarded body, with the module body rewritten in place, leaves the namespace, captured texts and `result_value` that `Evaluate` gives, and does not touch the counter |
| `Repl.Run` | gpt_oss/tools/python_stateful.py:33-110 | reference reading of one call: blank code gives the bare label and the same namespace; other code is evaluated and reported, or raises when `repr` of the captured value raises |
| `Repl.Evaluate` | gpt_oss/tools/python_stateful.py:48-91 | reference reading of the guarded body: parse, rewrite, compile, exec, then pop the slot into `_` |
| `Repl.BlankCall` | gpt_oss/tools/python_stateful.py:35-36 | whitespace-only code reports exactly `Label(n)` and leaves the namespace unchanged |
| `Repl.NonBlankCall` | gpt_oss/tools/python_stateful.py:35-110 | any other code is evaluated; when the value line is due and its `repr` raises, the call raises; otherwise the report is the label followed by the present output, value and error lines |
| `Repl.RaisesOnlyThroughRepr` | gpt_oss/tools/python_stateful.py:101-103 | a call raises exactly when its code is not blank, a non-`None` value was captured, and `repr` of that value raises |
| `Repl.NoValueCall` | gpt_oss/tools/python_stateful.py:98-110 | a non-blank call that captured no value reports the label, then its output and error lines, and never raises |
| `Repl.SyntaxErrorCall` | gpt_oss/tools/python_stateful.py:51-56 | a parse failure leaves the namespace unchanged; the report is the label plus the right-stripped error text, with no value line |
| `Repl.CompileErrorCall` | gpt_oss/tools/python_stateful.py:74 | a module that fails to compile leaves the namespace unchanged; the report is the label plus the error text |
| `Repl.RuntimeFaultCall` | gpt_oss/tools/python_stateful.py:77-87 | a runtime fault keeps the namespace as the fault left it (no rollback, no `_` update); there is no value line; the traceback follows the program's own stderr text |
| `Repl.CapturedValueCall` | gpt_oss/tools/python_stateful.py:80-82 | after a capturing run that bound the slot, the slot is not a key, `_` equals the captured value, and every other key is as the program left it; the value line appears exactly when the value is not `None`; when its `repr` raises, the call raises with the namespace already updated |
| `Repl.NoTrailingExpressionCall` | gpt_oss/tools/python_stateful.py:59-60 | code not ending in a bare expression runs unrewritten and never gets a value line; the namespace is the program's own |
| `Repl.CaptureRewrite` | gpt_oss/tools/python_stateful.py:59-69 | body length is preserved; a last `Expr(e)` becomes `Assign(ResultSlot, e)` with all earlier statements untouched and in order, and capture is true; otherwise the body is unchanged and capture is false |
| `Repl.CaptureLastExpression` | gpt_oss/tools/python_stateful.py:60-69 | the in-place replacement of `module.body[-1]` gives exactly the body and flag of `CaptureRewrite` |
| `Repl.RewriteRoundTrip` | gpt_oss/tools/python_stateful.py:59-69 | undoing the rewrite gives back the parsed body |
| `Repl.RewriteIdempotent` | gpt_oss/tools/python_stateful.py:59-69 | a rewritten body no longer ends in a bare expression, so a second rewrite captures nothing and changes nothing |
| `Repl.ReportParts` | gpt_oss/tools/python_stateful.py:98-105 | the parts in source order: stripped stdout if the output is non-empty, `repr(result)` if the result is not `None` (falsy values included), stripped stderr if the error text is non-empty; nothing else |
| `Repl.FormatReport` | gpt_oss/tools/python_stateful.py:107-110 | the report starts with the label; with no parts it is exactly the label |
| `Repl.ReportLayout` | gpt_oss/tools/python_stateful.py:98-110 | the report is the label followed by one `"\n"`-led line for each present part, in order |
| `Repl.LabelReadBack` | gpt_oss/tools/python_stateful.py:36 | the label `[Execution #n]` gives back `n`, whatever follows it |
| `Repl.ReportCountRoundTrip` | gpt_oss/tools/python_stateful.py:107-110 | every report can be read back to the count it was made with |
| `Repl.RunLabelled` | gpt_oss/tools/python_stateful.py:33-36 | every call's report, blank or not, reads back to that call's count |
| `Repl.LabelsDistinct` | gpt_oss/tools/python_stateful.py:108 | different counts never give the same label |
| `Repl.Label` | gpt_oss/tools/python_stateful.py:36 | the f-string `[Execution #n]`; `LabelReadBack` and `LabelsDistinct` state what it determines |
| `Repl.LabelExamples` | gpt_oss/tools/python_stateful.py:36 | `Label(1)` is `"[Execution #1]"` and `Label(42)` is `"[Execution #42]"` |
| `Repl.ReportedRun` | gpt_oss/tools/python_stateful.py:101-105 | the corrected call, in which a raising `repr` is reported like every other fault: its traceback goes after the error text and there is no value line |
| `Repl.ReportedRunAlwaysReports` | gpt_oss/tools/python_stateful.py:101-105 | the corrected call always returns a report labelled with its count; it leaves the same namespace as the call as written and agrees with it whenever that call returns |
| `PyStr.RStrip` | gpt_oss/tools/python_stateful.py:100 | `rstrip()` gives the longest prefix not ending in whitespace; everything removed is whitespace |
| `PyStr.LStrip` | gpt_oss/tools/python_stateful.py:35 | `lstrip()` gives the longest suffix not starting with whitespace; everything removed is whitespace |
| `PyStr.Strip` | gpt_oss/tools/python_stateful.py:35 | `code.strip()`, built from `LStrip` and `RStrip`; `StripEmptyIffBlank` states when it is empty |
| `PyStr.StripEmptyIffBlank` | gpt_oss/tools/python_stateful.py:35 | `not code.strip()` holds exactly when every character of the code is whitespace |
| `PyStr.Join` | gpt_oss/tools/python_stateful.py:108 | `"\n".join(parts)`; `JoinAppend` states how it grows |
| `PyStr.JoinAppend` | gpt_oss/tools/python_stateful.py:108 | joining one more part appends the separator and that part |
| `Repl.FormatAppend` | gpt_oss/tools/python_stateful.py:107-110 | one more part appends a newline and that part to the report |
| `PyStr.NatToDecimal` | gpt_oss/tools/python_stateful.py:36 | `str(n)` is non-empty, all decimal digits, with no leading zero unless `n` is 0 |
| `PyStr.DecimalRoundTrip` | gpt_oss/tools/python_stateful.py:36 | reading the decimal rendering of `n` back gives `n` |
| `Adapter.CodeOf` | gpt_oss/tools/python_stateful.py:146 | the text of the first content part, or the empty string when there are no parts; `DispatchOf` states how it is used |
| `Adapter.DispatchOf` | gpt_oss/tools/python_stateful.py:146-152 | the executor runs exactly when the first content part's text is non-empty, and it runs that text; otherwise the reply is `"Error: No code provided"` |
| `Adapter.PythonTool.constructor` | gpt_oss/tools/python_stateful.py:116-117 | a new tool owns a fresh executor with no calls made and the start-up namespace `__name__` = `"__main__"`, `__package__` = `None`, `__builtins__` |
| `Adapter.PythonTool.Process` | gpt_oss/tools/python_stateful.py:143-152 | a request without code returns the diagnostic and leaves counter and namespace untouched; any other request is exactly one `Execute` call, and an exception escaping it escapes `Process` too |
| `Adapter.WhitespaceIsExecuted` | gpt_oss/tools/python_stateful.py:148-152 | whitespace-only text passes the empty check and is answered by the executor with its bare label |
| `Scenarios.SlotUnbound` | gpt_oss/tools/python_stateful.py:21 | the reserved slot is not one of the names the four-call session binds |
| `Scenarios.CaptureCall` | gpt_oss/tools/python_stateful.py:59-82 | a one-statement bare expression that yields `v` rebinds `_` to `v`, and its report is the label and `repr(v)`, or the call raises when `repr(v)` raises |
| `Scenarios.BindCall` | gpt_oss/tools/python_stateful.py:33-110 | `x = 5` on a fresh executor reports `[Execution #1]` and binds `x` |
| `Scenarios.ValueCall` | gpt_oss/tools/python_stateful.py:59-110 | `x + 1` then reports `[Execution #2]\n6` and rebinds `_` to 6 |
| `Scenarios.LastValueCall` | gpt_oss/tools/python_stateful.py:59-110 | `_` with `_` bound to 6 reports `[Execution #4]\n6` and leaves the namespace as it was |
| `Scenarios.FourCallSession` | gpt_oss/tools/python_stateful.py:31-110 | the four calls `x = 5`, `x + 1`, an empty call and `_` report `[Execution #1]`, `[Execution #2]\n6`, `[Execution #3]` and `[Execution #4]\n6`; `x` is 5, `_` is 6 and the slot is gone |
| `Scenarios.PrintCallExample` | gpt_oss/tools/python_stateful.py:80-100 | a trailing `print()` reports the label and one empty line, and rebinds `_` to `None` |
| `Scenarios.ReprEscapeExample` | gpt_oss/tools/python_stateful.py:80-105 | `A()` with a raising `__repr__` raises after `_` was rebound; the corrected call reports the traceback instead |

## Findings

| source | as written | input that shows it | evidently intended | confidence | as-written member | corrected member |
|---|---|---|---|---|---|---|
| gpt_oss/tools/python_stateful.py:101-103 | `repr(result_value)` is called after the `try`/`except`/`finally`, so an exception from `__repr__` escapes `execute` and `_process`, after the counter, slot and `_` were updated | `class A:\n def __repr__(self): raise ValueError\nA()` | every fault is reported as error text in the report, and the call never raises to its caller | medium, not executed | `Scenarios.ReprEscapeExample` (on `Repl.Run`) | `Repl.ReportedRunAlwaysReports` (on `Repl.ReportedRun`) |

`Repl.Executor.Execute` keeps the behaviour as written, because it models the executor itself. `Repl.ReportedRun` is the corrected reading, and `Repl.ReportedRunAlwaysReports` relates the two.

## Left out

- Standard output and standard error redirection (`sys.stdout`/`sys.stderr` swapped and restored in `finally`): process-wide I/O. The captured texts are the `stdout` and `stderr` of the interpreter's outcome.
- Concurrency: the model runs one call at a time, as the source assumes.
- The semantics of `ast.parse`, `compile`, `exec` and `repr`: this is Python's interpreter. Each is a function in the `Interpreter` passed to the call. A call's hidden state (files, clock, imported modules) is folded into that call's interpreter.
- The text of `traceback.format_exc()`: it is the string carried by a parse, compile or exec failure.
- `ast.copy_location` and `ast.fix_missing_locations`: source-position metadata with no effect on behaviour.
- Exceptions that are not `Exception` (`SystemExit`, `KeyboardInterrupt`) raised by the program: in the source they escape `execute` after the streams are restored. The model treats every fault of the guarded body as an `Exception`, which is caught and reported. The one modelled escape is a raising `repr` (see "## Findings").
- Repl.Executor.Execute: does not model a program that closes the redirected `sys.stdout` or `sys.stderr`. `getvalue()` at lines 94-95 would then raise; the model's captured texts can always be read.
- Text written to standard error while the code is parsed or compiled (for example a `SyntaxWarning`): it is folded into the failure's traceback string. When parsing and compiling succeed, such warnings are not modelled.
- `repr` of a value: the text, or the failure's traceback, comes from the `Interpreter`. Anything a `__repr__` prints is not modelled; in the source it runs after the streams are restored, so it is not captured either.
- Repl.Executor.Execute: does not model changes that a user-defined `__repr__` makes to the namespace. A function defined by the executed code has the namespace as its globals, so its `__repr__` can bind or rebind names (`global y; y = 1`) when line 103 renders the value. The model's `repr` is a pure function of the value, so the namespace after the call is the one the guarded body left. The same holds for `Repl.Run`, `Repl.ReportedRun` and `Repl.ReportedRunAlwaysReports`.
- Statements and expressions are kept only at the level of "bare expression, single-name assignment, or anything else", which is all the rewrite inspects.
- The response envelope (`Message`, `Author`, `TextContent`, `with_recipient`, `with_channel`, channel propagation) and the async generator: thin wrappers over a library that is not part of this model. `Adapter.PythonTool.Process` returns the output text.
- `name`, `instruction` and `tool_config`: constant strings and metadata.
- Content parts that are not text parts: `message.content[0].text` assumes a text part, and the model has only text parts.
