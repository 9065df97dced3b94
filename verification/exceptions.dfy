/**
 * Python exceptions as values: the built-in classes the server tells apart,
 * and the structured MCPError. An operation that may raise returns
 * `Outcome<T>`.
 */
module Exceptions {
  import opened Wrappers
  import opened Errors

  datatype ExceptionClass =
    | TimeoutError
    | ConnectionError
    | ConnectionResetError
    | ConnectionRefusedError
    | ConnectionAbortedError
    | BrokenPipeError
    | TypeError
    | ImportError
    | AttributeError
    | KeyError
    | ValueError
    | NotImplementedError
    | OtherException(className: string)

  datatype Exception =
    | Builtin(cls: ExceptionClass, text: string)
    | Mcp(err: MCPError)

  type Outcome<T> = Result<T, Exception>

  /** `isinstance(e, ConnectionError)`: the four connection subclasses count. */
  predicate IsConnectionError(c: ExceptionClass) {
    c.ConnectionError? || c.ConnectionResetError? || c.ConnectionRefusedError?
    || c.ConnectionAbortedError? || c.BrokenPipeError?
  }

  /** `str(e)`: an MCPError renders through its own `__str__`. */
  function ExceptionText(e: Exception): string {
    match e
    case Builtin(_, text) => text
    case Mcp(err) => ToString(err)
  }
}
