/** The exceptions the sandbox host raises or catches: the `SandboxError`
    hierarchy of parselbox/main.py and the built-in Python exceptions that
    its code paths can raise. */
module Errors {
  import opened PyValues

  datatype ErrorClass =
    | RuntimeError
    | SandboxError
    | SandboxTimeoutError
    | SandboxPermissionError
    | SandboxRuntimeError
    | AttributeError
    | KeyError
    | TypeError
    | IndexError
    | FileNotFoundError
    | UnboundLocalError
    | SystemExit
    | KeyboardInterrupt
    | GeneratorExit
    | CancelledError        // asyncio.CancelledError
    | Other(name: string)   // any other subclass of Exception, e.g. a tool's ValueError

  /** `type(e).__name__`. */
  function ClassName(c: ErrorClass): string
  {
    match c
    case RuntimeError => "RuntimeError"
    case SandboxError => "SandboxError"
    case SandboxTimeoutError => "SandboxTimeoutError"
    case SandboxPermissionError => "SandboxPermissionError"
    case SandboxRuntimeError => "SandboxRuntimeError"
    case AttributeError => "AttributeError"
    case KeyError => "KeyError"
    case TypeError => "TypeError"
    case IndexError => "IndexError"
    case FileNotFoundError => "FileNotFoundError"
    case UnboundLocalError => "UnboundLocalError"
    case SystemExit => "SystemExit"
    case KeyboardInterrupt => "KeyboardInterrupt"
    case GeneratorExit => "GeneratorExit"
    case CancelledError => "CancelledError"
    case Other(n) => n
  }

  /** `isinstance(e, SandboxError)`: the base class and its three subclasses. */
  predicate IsSandboxError(c: ErrorClass)
  {
    c == SandboxError || c == SandboxTimeoutError || c == SandboxPermissionError || c == SandboxRuntimeError
  }

  /** `isinstance(e, Exception)`: false only for the classes that derive
      from `BaseException` directly, which `except Exception` lets through. */
  predicate IsException(c: ErrorClass)
  {
    !(c == SystemExit || c == KeyboardInterrupt || c == GeneratorExit || c == CancelledError)
  }

  /** A raised exception: its class and its single constructor argument
      (`str(e)` is the argument's text for a string argument). */
  datatype Exc = Exc(cls: ErrorClass, arg: Value)

  /** The end of an operation that returns nothing: it completed or raised. */
  datatype Completion = Completed | Threw(exc: Exc)
}
