/** What every task shares: reading a rendered property, the required-value
    checks, and the two generations' checks of the response envelope. */
module TaskCommon {
  import opened Model
  import opened Text
  import opened Client

  /** The exceptions a task's `run` ends with. */
  datatype TaskError =
    | IllegalArgument(message: string)  // a required property rendered to nothing
    | IllegalState(message: string)     // new tasks: `success` is not TRUE
    | Runtime(message: string)          // legacy tasks: `success` is false
    | NullPointer                       // a null `success` unboxed, or a null `data` dereferenced
    | ClassCast                         // a contact entry holding a value of the wrong type
    | Request(cause: ClientError)       // the IOException thrown by `get`, `post` or `put`

  /** The message of `renderApiToken` and of the legacy tasks' own token check. */
  const TokenRequired := "API token is required"

  /** `runContext.render(p).as(T)`: empty when the property is not configured
      or when it renders to nothing. */
  function Rendered<T>(p: Prop<T>): (v: Option<T>)
    ensures v.Some? <==> p.Set? && p.rendered.Some?
    ensures v.Some? ==> v == p.rendered
  {
    match p
    case Unset => None
    case Set(r) => r
  }

  /** `p == null ? null : render(p).as(T).orElse(fallback)`: the fallback
      stands in only for a configured property that renders to nothing. */
  function RenderedElse<T>(p: Prop<T>, fallback: T): (v: Option<T>)
    ensures v.None? <==> p.Unset?
    ensures p == Set(None) ==> v == Some(fallback)
    ensures Rendered(p).Some? ==> v == Rendered(p)
  {
    match p
    case Unset => None
    case Set(None) => Some(fallback)
    case Set(Some(x)) => Some(x)
  }

  /** One builder setter behind a null check on the rendered value
      (`if (v != null) builder.field(v)`): the slot takes the value when
      there is one and is left alone otherwise. */
  method SetIfPresent<T>(slot: Option<T>, v: Option<T>) returns (s: Option<T>)
    ensures v.Some? ==> s == v
    ensures v.None? ==> s == slot
  {
    s := slot;
    if v.Some? {
      s := v;
    }
  }

  /** One builder setter behind a null check on the property itself
      (`if (p != null) builder.field(render(p)...)`): a configured property
      sets the slot to its rendering, even to null. */
  method SetIfConfigured<T>(slot: Option<T>, p: Prop<T>) returns (s: Option<T>)
    ensures p.Set? ==> s == p.rendered
    ensures p.Unset? ==> s == slot
  {
    s := slot;
    if p.Set? {
      s := p.rendered;
    }
  }

  /** The same setter with a fallback for a configured property that renders
      to nothing (`builder.field(render(p).orElse(fallback))`). */
  method SetIfConfiguredElse<T>(slot: Option<T>, p: Prop<T>, fallback: T) returns (s: Option<T>)
    ensures p.Set? ==> s == RenderedElse(p, fallback)
    ensures p.Unset? ==> s == slot
  {
    s := slot;
    if p.Set? {
      s := Some(if p.rendered.Some? then p.rendered.value else fallback);
    }
  }

  /** `render(p).as(T).orElseThrow(() -> new IllegalArgumentException(message))`. */
  function Require<T>(p: Prop<T>, message: string): (r: Result<T, TaskError>)
    ensures r.Ok? <==> Rendered(p).Some?
    ensures r.Ok? ==> r.value == Rendered(p).value
    ensures r.Err? ==> r.error == IllegalArgument(message)
  {
    match Rendered(p)
    case Some(x) => Ok(x)
    case None => Err(IllegalArgument(message))
  }

  /** `renderApiUrl` (AbstractPipedriveTask.java): the rendered URL, or the
      default base URL when it renders to nothing. */
  function RenderApiUrl(p: Prop<string>): (url: string)
    ensures Rendered(p).Some? ==> url == Rendered(p).value
    ensures Rendered(p).None? ==> url == BaseUrl
  {
    match Rendered(p)
    case Some(u) => u
    case None => BaseUrl
  }

  /** What a task hands to the HTTP client: the client's base URL and token
      (given to its constructor) and the call it then makes. */
  datatype Dispatch<+B> = Dispatch(base: string, token: string, call: ApiCall<B>)

  /** The new tasks' check `!Boolean.TRUE.equals(response.getSuccess())`,
      followed by the dereference of `data` in the log line after it. */
  function CheckStrict<T>(reply: Reply<T>, prefix: string): (r: Result<T, TaskError>)
    ensures r.Ok? <==> reply.Ok? && reply.value.success == Some(true) && reply.value.data.Some?
    ensures r.Ok? ==> r.value == reply.value.data.value
    ensures reply.Err? ==> r == Err(Request(reply.error))
    ensures reply.Ok? && reply.value.success != Some(true)
            ==> r == Err(IllegalState(prefix + JavaString(reply.value.error)))
    ensures reply.Ok? && reply.value.success == Some(true) && reply.value.data.None? ==> r == Err(NullPointer)
  {
    match reply
    case Err(e) => Err(Request(e))
    case Ok(envelope) =>
      if envelope.success != Some(true) then Err(IllegalState(prefix + JavaString(envelope.error)))
      else match envelope.data
        case Some(d) => Ok(d)
        case None => Err(NullPointer)
  }

  /** The legacy check `!response.getSuccess()`, which unboxes the nullable
      `Boolean`, followed by the same dereference of `data`. */
  function CheckUnboxed<T>(reply: Reply<T>, prefix: string): (r: Result<T, TaskError>)
    ensures r.Ok? <==> reply.Ok? && reply.value.success == Some(true) && reply.value.data.Some?
    ensures r.Ok? ==> r.value == reply.value.data.value
    ensures reply.Err? ==> r == Err(Request(reply.error))
    ensures reply.Ok? && reply.value.success == Some(false)
            ==> r == Err(Runtime(prefix + JavaString(reply.value.error)))
    ensures reply.Ok? && reply.value.success.None? ==> r == Err(NullPointer)
    ensures reply.Ok? && reply.value.success == Some(true) && reply.value.data.None? ==> r == Err(NullPointer)
  {
    match reply
    case Err(e) => Err(Request(e))
    case Ok(envelope) =>
      match envelope.success
      case None => Err(NullPointer)
      case Some(false) => Err(Runtime(prefix + JavaString(envelope.error)))
      case Some(true) =>
        match envelope.data
        case Some(d) => Ok(d)
        case None => Err(NullPointer)
  }

  /** The two generations accept the same envelopes and differ only in how
      they fail: a missing `success` is a rejection with the server's error
      for the new tasks and a NullPointerException for the legacy ones, and
      `success: false` gives the same message under two exception types. */
  lemma SuccessChecksCompared<T>(reply: Reply<T>, prefix: string)
    ensures CheckStrict(reply, prefix).Ok? ==> CheckUnboxed(reply, prefix) == CheckStrict(reply, prefix)
    ensures CheckUnboxed(reply, prefix).Ok? ==> CheckStrict(reply, prefix) == CheckUnboxed(reply, prefix)
    ensures reply.Ok? && reply.value.success.None?
            ==> CheckStrict(reply, prefix).Err? && CheckStrict(reply, prefix).error.IllegalState?
                && CheckUnboxed(reply, prefix) == Err(NullPointer)
    ensures reply.Ok? && reply.value.success == Some(false)
            ==> && CheckStrict(reply, prefix).Err? && CheckStrict(reply, prefix).error.IllegalState?
                && CheckUnboxed(reply, prefix).Err? && CheckUnboxed(reply, prefix).error.Runtime?
                && CheckStrict(reply, prefix).error.message == CheckUnboxed(reply, prefix).error.message
  {
  }

  /** A failed request reaches the caller of either generation unchanged. */
  lemma RequestFailurePropagates<T>(reply: Reply<T>, prefix: string)
    requires reply.Err?
    ensures CheckStrict(reply, prefix) == CheckUnboxed(reply, prefix) == Err(Request(reply.error))
  {
  }
}
