/**
 * The Python interpreter facilities the executor calls but does not implement:
 * `ast.parse`, `compile`, `exec` and `repr`.  They appear here only through the
 * shape of what they return, and are handed to every call as an `Interpreter`
 * value, so whatever hidden state the real interpreter consults (files, clocks,
 * imported modules) is folded into the interpreter of that call.
 */
module Interp {
  import opened Wrappers

  /** A Python object as the namespace holds it.  `NoneValue` is Python's `None`. */
  datatype Value =
    | NoneValue
    | Int(i: int)
    | Str(s: string)
    | BuiltinsModule
    | Object(id: nat)

  /** A module namespace: the `globals` dictionary. */
  type Globals = map<string, Value>

  /** An expression node, left uninterpreted. */
  datatype Expression = Expression(source: string)

  /**
   * A top-level statement of a parsed module: a bare expression statement
   * (`ast.Expr`), an assignment to a single name (`ast.Assign`), or any other
   * statement (definitions, imports, control flow, other assignments).
   */
  datatype Stmt =
    | Expr(value: Expression)
    | Assign(target: string, value: Expression)
    | Other(source: string)

  /**
   * What `ast.parse(code, mode="exec")` gives: a module body, or the formatted
   * report of the error it raised.  Warnings the parser writes to standard
   * error are not kept apart: on failure they are part of `traceback`, on
   * success they are not modelled.
   */
  datatype ParseResult =
    | Module(body: seq<Stmt>)
    | SyntaxError(traceback: string)

  /**
   * What `exec(code_obj, globals, globals)` leaves behind: the namespace as it
   * stands when execution ends (at the fault, if there was one: nothing is
   * rolled back), the text written to standard output and standard error, and,
   * when an exception escaped, its formatted traceback.
   */
  datatype ExecOutcome = ExecOutcome(globals: Globals, stdout: string, stderr: string, fault: Option<string>)

  /**
   * What `repr(value)` gives: the text, or the formatted traceback of the
   * exception a user-defined `__repr__` raised.
   */
  datatype Rendering = Text(text: string) | ReprFault(traceback: string)

  /**
   * The interpreter of one call. `compile` gives `None` on success and the
   * formatted traceback when compiling the (rewritten) module raises; as for
   * `parse`, warnings it writes to standard error are part of that traceback.
   */
  datatype Interpreter = Interpreter(
    parse: string -> ParseResult,
    compile: seq<Stmt> -> Option<string>,
    exec: (seq<Stmt>, Globals) -> ExecOutcome,
    repr: Value -> Rendering)
}
