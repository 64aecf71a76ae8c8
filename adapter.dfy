/**
 * The tool adapter: it takes the code out of an incoming message, answers an
 * empty request with a fixed diagnostic without running anything, and
 * otherwise hands the code to its one persistent executor.
 */
module Adapter {
  import opened Wrappers
  import opened PyStr
  import opened Interp
  import opened Repl

  /** A text part of a message. */
  datatype TextContent = TextContent(text: string)

  /** An incoming request: its content parts and optional routing channel. */
  datatype Message = Message(content: seq<TextContent>, channel: Option<string>)

  /** The reply to a request that carries no code. */
  const NoCodeError: string := "Error: No code provided"

  /** What the adapter does with a request: reply at once, or run the code on the executor. */
  datatype Dispatch = Reply(output: string) | ExecuteCode(code: string)

  /** The code of a request: the text of its first part, or the empty string when it has no parts. */
  function CodeOf(message: Message): string
  {
    if message.content != [] then message.content[0].text else ""
  }

  /**
   * The executor runs exactly when the first part's text is non-empty, and
   * then runs that text unchanged; a message without parts or with an empty
   * first text gets `NoCodeError`.  Whitespace-only text is not empty, so it
   * does reach the executor.
   */
  function DispatchOf(message: Message): (d: Dispatch)
    ensures d.ExecuteCode? <==> |message.content| > 0 && message.content[0].text != ""
    ensures d.ExecuteCode? ==> d.code == message.content[0].text
    ensures d.Reply? ==> d.output == NoCodeError
  {
    var code := CodeOf(message);
    if code == "" then Reply(NoCodeError) else ExecuteCode(code)
  }

  /** The tool object: one persistent executor for the whole conversation. */
  class PythonTool {
    const executor: Executor

    /** A new tool owns a new executor with no calls made and the start-up namespace. */
    constructor ()
      ensures fresh(executor)
      ensures executor.executionCount == 0
      ensures executor.globals == StartupNamespace
      ensures executor.globals.Keys == {"__name__", "__package__", "__builtins__"}
    {
      executor := new Executor();
    }

    /**
     * The output text for one request.  A request without code leaves the
     * executor untouched (counter included); any other request is exactly one
     * `Execute` call on its code, and an exception escaping that call escapes
     * here too.
     */
    method Process(message: Message, py: Interpreter) returns (reply: CallResult)
      modifies executor
      ensures DispatchOf(message).Reply? ==>
                reply == Report(NoCodeError)
                && executor.executionCount == old(executor.executionCount)
                && executor.globals == old(executor.globals)
      ensures DispatchOf(message).ExecuteCode? ==>
                executor.executionCount == old(executor.executionCount) + 1
                && Step(executor.globals, reply) == Run(executor.executionCount, old(executor.globals), CodeOf(message), py)
    {
      match DispatchOf(message) {
        case Reply(output) =>
          reply := Report(output);
        case ExecuteCode(code) =>
          reply := executor.Execute(code, py);
      }
    }
  }

  /** Whitespace-only code is executed, and its report is the bare label of the new count. */
  lemma WhitespaceIsExecuted(message: Message, count: nat, globals: Globals, py: Interpreter)
    requires message.content != [] && message.content[0].text != "" && IsBlank(message.content[0].text)
    ensures DispatchOf(message) == ExecuteCode(message.content[0].text)
    ensures Run(count, globals, CodeOf(message), py) == Step(globals, Report(Label(count)))
  {
    BlankCall(count, globals, CodeOf(message), py);
  }
}
