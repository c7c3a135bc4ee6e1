/** The error mapper: how `PythonSandbox._call_mcp`, `_raise_for_error` and
    the check at the end of `_configure` turn a request to the worker into
    its structured content or into an exception of the sandbox's taxonomy. */
module ErrorMapper {
  import opened PyValues
  import opened Text
  import opened Errors

  /** The worker's answer to a tool call: `is_error`, `structured_content`,
      and the text of the first content block (`None` when there is none). */
  datatype Response = Response(isError: bool, structured: Option<Dict>, firstText: Option<string>)

  /** What `client.call_tool` does: raise with a message, or answer. */
  datatype Transport = TransportRaised(message: string) | Answered(response: Response)

  const NOT_CONNECTED: Exc := Exc(RuntimeError, Str("Sandbox is not connected."))

  /** What calling `.get` on a missing structured content raises. */
  const NONE_HAS_NO_GET: Exc := Exc(AttributeError, Str("'NoneType' object has no attribute 'get'"))

  /** `content.get("error_code")`. */
  function ErrorCode(content: Dict): Value
  {
    Get(content, "error_code", Null)
  }

  /** `_raise_for_error`: the typed exception for a recognised error code,
      `None` when the method returns without raising. */
  function RaiseForError(content: Dict): (r: Option<Exc>)
    ensures r.Some? <==> ErrorCode(content) == Str("TIMEOUT") || ErrorCode(content) == Str("PERMISSION_DENIED")
    ensures r.Some? ==> r.value.arg == Get(content, "error", Str("Unknown Error"))
    ensures r.Some? ==>
      r.value.cls == (if ErrorCode(content) == Str("TIMEOUT") then SandboxTimeoutError else SandboxPermissionError)
  {
    var msg := Get(content, "error", Str("Unknown Error"));
    if ErrorCode(content) == Str("TIMEOUT") then Some(Exc(SandboxTimeoutError, msg))
    else if ErrorCode(content) == Str("PERMISSION_DENIED") then Some(Exc(SandboxPermissionError, msg))
    else None
  }

  /** The error code an answer carries in its structured content, if any. */
  function ResponseCode(resp: Response): Value
  {
    if resp.structured.Some? then ErrorCode(resp.structured.value) else Null
  }

  /** `_call_mcp`: the structured content of a successful call, or the
      exception it raises. */
  function CallMcp(connected: bool, t: Transport): (r: Result<Option<Dict>, Exc>)
    ensures r.Err? <==> !connected || t.TransportRaised? || t.response.isError
    ensures r.Ok? ==> r.value == t.response.structured
    ensures r.Err? ==> r.error == NOT_CONNECTED || IsSandboxError(r.error.cls)
  {
    if !connected then Err(NOT_CONNECTED)
    else match t
      case TransportRaised(m) =>
        if Contains(m, "Connection closed") || Contains(Lower(m), "closed") then
          Err(Exc(SandboxRuntimeError, Str("Sandbox crashed or connection closed: " + m)))
        else
          Err(Exc(SandboxError, Str("Communication error: " + m)))
      case Answered(resp) =>
        if resp.isError then
          var typed :=
            if resp.structured.Some? && "error_code" in resp.structured.value
            then RaiseForError(resp.structured.value) else None;
          if typed.Some? then Err(typed.value)
          else
            var text := if resp.firstText.Some? then resp.firstText.value else "Unknown error";
            Err(Exc(SandboxError, Str("MCP Protocol Error: " + text)))
        else Ok(resp.structured)
  }

  /** The case-sensitive test for "Connection closed" adds nothing to the
      case-insensitive test for "closed". */
  lemma ConnectionClosedIsClosed(m: string)
    requires Contains(m, "Connection closed")
    ensures Contains(Lower(m), "closed")
  {
    var i :| 0 <= i <= |m| - 17 && OccursAt(m, "Connection closed", i);
    var j := i + 11;
    var seg := m[i..i + 17];
    var l := Lower(m);
    forall k | 0 <= k < 6 ensures l[j + k] == "closed"[k] {
      assert m[j + k] == seg[11 + k];
      assert seg[11 + k] == "closed"[k];
    }
    assert l[j..j + 6] == "closed";
    assert OccursAt(l, "closed", j);
  }

  /** The exception class of a failed call, by cause: not connected gives
      RuntimeError; a transport failure gives SandboxRuntimeError exactly when
      its message mentions "closed" in any case, SandboxError otherwise; an
      error answer gives SandboxTimeoutError or SandboxPermissionError for the
      codes TIMEOUT and PERMISSION_DENIED, and SandboxError for anything else. */
  lemma CallMcpClassifies(connected: bool, t: Transport)
    ensures var r := CallMcp(connected, t);
      && (r.Err? && r.error.cls == RuntimeError <==> !connected)
      && (r.Err? && r.error.cls == SandboxRuntimeError <==>
            connected && t.TransportRaised? && Contains(Lower(t.message), "closed"))
      && (r.Err? && r.error.cls == SandboxTimeoutError <==>
            connected && t.Answered? && t.response.isError && ResponseCode(t.response) == Str("TIMEOUT"))
      && (r.Err? && r.error.cls == SandboxPermissionError <==>
            connected && t.Answered? && t.response.isError && ResponseCode(t.response) == Str("PERMISSION_DENIED"))
      && (r.Err? && r.error.cls == SandboxError <==>
            connected &&
            ((t.TransportRaised? && !Contains(Lower(t.message), "closed")) ||
             (t.Answered? && t.response.isError &&
              ResponseCode(t.response) != Str("TIMEOUT") && ResponseCode(t.response) != Str("PERMISSION_DENIED"))))
  {
    if connected && t.TransportRaised? && Contains(t.message, "Connection closed") {
      ConnectionClosedIsClosed(t.message);
    }
    if connected && t.Answered? && t.response.structured.Some? && "error_code" !in t.response.structured.value {
      assert ResponseCode(t.response) == Null;
    }
  }

  /** The check after the `configure` call: a response whose `is_success` is
      not truthy always raises, with a typed exception when its error code is
      recognised and SandboxError otherwise; a missing structured content
      fails on `.get`. */
  function ConfigureOutcome(called: Result<Option<Dict>, Exc>): (r: Result<Dict, Exc>)
    ensures r.Ok? <==> called.Ok? && called.value.Some? && Truthy(Get(called.value.value, "is_success", Null))
    ensures r.Ok? ==> r.value == called.value.value
    ensures called.Err? ==> r == Err(called.error)
    ensures called == Ok(None) ==> r == Err(NONE_HAS_NO_GET)
    ensures called.Ok? && called.value.Some? && r.Err? ==>
      var d := called.value.value;
      r.error.cls == (if ErrorCode(d) == Str("TIMEOUT") then SandboxTimeoutError
                      else if ErrorCode(d) == Str("PERMISSION_DENIED") then SandboxPermissionError
                      else SandboxError)
  {
    match called
    case Err(e) => Err(e)
    case Ok(None) => Err(NONE_HAS_NO_GET)
    case Ok(Some(d)) =>
      if Truthy(Get(d, "is_success", Null)) then Ok(d)
      else match RaiseForError(d)
        case Some(e) => Err(e)
        case None => Err(Exc(SandboxError, Str("Configuration failed: " + Render(Get(d, "error", Null)))))
  }
}
