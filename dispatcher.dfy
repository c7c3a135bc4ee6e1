/** The callback dispatcher (`PythonSandbox._handle_callback`): routes a
    request that the running script sends to the host to a registered tool
    or proxy handler, and turns every failure into an error payload for the
    worker instead of an exception on the host. */
module Dispatcher {
  import opened PyValues
  import opened Errors

  /** The `Callback` dataclass: `kind` is the message's `type` field, which the
      dataclass annotates as "callback" or "proxy_callback" but does not check. */
  datatype Callback = Callback(
    kind: string,
    name: string,
    args: seq<Value>,
    kwargs: map<string, Value>,
    path: Option<seq<string>>)

  /** What a host handler does when invoked: returns a value or raises. Whether
      the handler is a coroutine (awaited) or a plain function makes no
      difference to the outcome. */
  datatype Outcome = Returned(value: Value) | Raised(exc: Exc)

  /** A direct tool, called as `f(*args, **kwargs)`. */
  type ToolFn = (seq<Value>, map<string, Value>) -> Outcome

  /** A proxy handler, called with the whole Callback. */
  type ProxyFn = Callback -> Outcome

  /** The inbound message after `Callback(**json.loads(text))`: a callback, or
      the exception that decoding raised (invalid JSON, missing or unexpected
      fields). */
  datatype Incoming = Decoded(cb: Callback) | Undecodable(exc: Exc)

  /** The callback's answer: the handler's value, the
      `{__error__: str(e), __error_type__: type(e).__name__}` payload, or an
      exception that `except Exception` does not catch, which leaves
      `_handle_callback` and reaches the host. */
  datatype Reply = Delivered(value: Value) | Failed(error: Value, errorType: string) | Escaped(exc: Exc)

  /** Python's message when `output` is read before any branch assigned it. */
  const UNBOUND_OUTPUT: string := "cannot access local variable 'output' where it is not associated with a value"

  /** What the `except Exception` clause does with an exception raised in the `try`. */
  function Caught(e: Exc): Reply
  {
    if IsException(e.cls) then Failed(e.arg, ClassName(e.cls)) else Escaped(e)
  }

  function ReplyOf(o: Outcome): Reply
  {
    match o
    case Returned(v) => Delivered(v)
    case Raised(e) => Caught(e)
  }

  /** The value sent back as the callback's `result` (before JSON encoding). */
  function Encode(r: Reply): Value
    requires !r.Escaped?
  {
    match r
    case Delivered(v) => v
    case Failed(err, t) => Obj(map["__error__" := err, "__error_type__" := Str(t)])
  }

  /** `_handle_callback`: "callback" calls `tools[name](*args, **kwargs)`,
      "proxy_callback" calls `proxies[name](callback)`; a missing name raises
      KeyError, and any other type leaves `output` unassigned. */
  function Dispatch(msg: Incoming, tools: map<string, ToolFn>, proxies: map<string, ProxyFn>): Reply
  {
    match msg
    case Undecodable(e) => Caught(e)
    case Decoded(cb) =>
      if cb.kind == "callback" then
        if cb.name in tools then ReplyOf(tools[cb.name](cb.args, cb.kwargs))
        else Caught(Exc(KeyError, Str(cb.name)))
      else if cb.kind == "proxy_callback" then
        if cb.name in proxies then ReplyOf(proxies[cb.name](cb))
        else Caught(Exc(KeyError, Str(cb.name)))
      else
        Caught(Exc(UnboundLocalError, Str(UNBOUND_OUTPUT)))
  }

  /** The handler a message is routed to, if it is registered. */
  function Route(msg: Incoming, tools: map<string, ToolFn>, proxies: map<string, ProxyFn>): Option<Outcome>
  {
    if msg.Decoded? && msg.cb.kind == "callback" && msg.cb.name in tools then
      Some(tools[msg.cb.name](msg.cb.args, msg.cb.kwargs))
    else if msg.Decoded? && msg.cb.kind == "proxy_callback" && msg.cb.name in proxies then
      Some(proxies[msg.cb.name](msg.cb))
    else None
  }

  /** The exception a message makes the handler, or the decoding, raise:
      `None` when a registered handler returned. */
  function RaisedBy(msg: Incoming, tools: map<string, ToolFn>, proxies: map<string, ProxyFn>): Option<Exc>
  {
    match Route(msg, tools, proxies)
    case Some(Returned(_)) => None
    case Some(Raised(e)) => Some(e)
    case None =>
      if msg.Undecodable? then Some(msg.exc)
      else if msg.cb.kind == "callback" || msg.cb.kind == "proxy_callback" then Some(Exc(KeyError, Str(msg.cb.name)))
      else Some(Exc(UnboundLocalError, Str(UNBOUND_OUTPUT)))
  }

  /** Failures that are `Exception`s never escape: the worker receives a value
      exactly when a registered handler returned one, and otherwise an error
      payload naming the exception's class. An unregistered name is a
      KeyError carrying the name, an unknown type an UnboundLocalError. Only
      an exception outside `Exception` (SystemExit, KeyboardInterrupt,
      GeneratorExit, CancelledError) escapes, and then it is that exception. */
  lemma DispatchContainsFailures(msg: Incoming, tools: map<string, ToolFn>, proxies: map<string, ProxyFn>)
    ensures Dispatch(msg, tools, proxies).Delivered? <==>
      Route(msg, tools, proxies).Some? && Route(msg, tools, proxies).value.Returned?
    ensures Dispatch(msg, tools, proxies).Delivered? ==>
      Dispatch(msg, tools, proxies).value == Route(msg, tools, proxies).value.value
    ensures Dispatch(msg, tools, proxies).Escaped? <==>
      RaisedBy(msg, tools, proxies).Some? && !IsException(RaisedBy(msg, tools, proxies).value.cls)
    ensures Dispatch(msg, tools, proxies).Escaped? ==>
      Dispatch(msg, tools, proxies).exc == RaisedBy(msg, tools, proxies).value
    ensures RaisedBy(msg, tools, proxies).Some? && IsException(RaisedBy(msg, tools, proxies).value.cls) ==>
      Encode(Dispatch(msg, tools, proxies)) ==
        Obj(map["__error__" := RaisedBy(msg, tools, proxies).value.arg,
                "__error_type__" := Str(ClassName(RaisedBy(msg, tools, proxies).value.cls))])
    ensures Route(msg, tools, proxies).None? && msg.Decoded? ==>
      Dispatch(msg, tools, proxies) ==
        if msg.cb.kind == "callback" || msg.cb.kind == "proxy_callback" then Failed(Str(msg.cb.name), "KeyError")
        else Failed(Str(UNBOUND_OUTPUT), "UnboundLocalError")
  {
  }
}
