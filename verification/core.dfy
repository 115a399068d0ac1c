/** `LLMCaller`: construction from a service name and a model name, routing of a
    prompt to the handler registered for the service (`_dispatch`), and the public
    `call`, which passes the handler's outcome through unchanged. */
module Core {
  import opened AsciiText
  import opened Errors
  import opened Enums
  import opened Registry
  import opened Adapters

  /** A configured caller: the resolved service and the model name as given. */
  datatype Caller = Caller(service: Service, model: string)

  /** The provider capabilities the handlers call out to, one per implemented provider. */
  datatype Transport = Transport(
    openai: ChatRequest -> Reply<OpenAIReply>,
    anthropic: ChatRequest -> Reply<seq<ContentBlock>>,
    google: ChatRequest -> Reply<GoogleResponse>,
    aristote: ChatRequest -> Reply<AristoteReply>)

  /** `LLMCaller.__init__`: the service name is lowered and resolved; the model is
      stored as it is, with no validation. */
  function NewCaller(service: string, model: string): (r: Result<Caller>)
    ensures r.Ok? <==> exists m :: Lower(Value(m)) == Lower(service)
    ensures r.Ok? ==> Lower(Value(r.value.service)) == Lower(service) && r.value.model == model
    ensures r.Err? ==> r.error.InvalidServiceError? && Contains(r.error.message, Lower(service))
  {
    LowerIdempotent(service);
    match FromStr(Lower(service))
    case Ok(m) => Ok(Caller(m, model))
    case Err(e) => Err(e)
  }

  /** Construction succeeds exactly when `from_str` accepts the lowered name, and then
      holds the member `from_str` finds for the name as given. */
  lemma NewCallerResolves(service: string, model: string)
    ensures NewCaller(service, model).Ok? <==> FromStr(Lower(service)).Ok?
    ensures NewCaller(service, model).Ok? ==> NewCaller(service, model).value == Caller(FromStr(service).value, model)
  {
  }

  /** `handler(self, prompt)`: run one handler method on behalf of `c`. Whatever the
      handler, a request it sends is a single user turn with the prompt and the
      caller's model, and it never raises the dispatcher's `RuntimeError` or the
      constructor's `InvalidServiceError` (a library exception of any class stays a
      `ForeignError` or is wrapped as an `ApiCallError`); Aristote always sends, and the unsupported handler never does and always fails. */
  function RunHandler(h: Handler, c: Caller, prompt: string, env: Environment, t: Transport): (x: Exchange)
    ensures x.sent.Some? ==> IsUserTurn(x.sent.value, c.model, prompt)
    ensures x.result.Err? ==> !x.result.error.RuntimeError? && !x.result.error.InvalidServiceError?
    ensures h == CallAristote ==> x.sent.Some?
    ensures h == CallUnsupported ==> x.sent.None? && x.result.Err? && x.result.error.NotImplementedError?
  {
    match h
    case CallOpenAI => OpenAIAdapter(c.model, prompt, env, t.openai)
    case CallAnthropic => AnthropicAdapter(c.model, prompt, env, t.anthropic)
    case CallGoogle => GoogleAdapter(c.model, prompt, env, t.google)
    case CallAristote => AristoteAdapter(c.model, prompt, t.aristote)
    case CallUnsupported => UnsupportedAdapter(c.service)
  }

  /** `_dispatch` over a given handler table: a service missing from the table raises
      `RuntimeError` naming it, without reaching any provider. */
  function DispatchWith(table: map<Service, Handler>, c: Caller, prompt: string, env: Environment,
                        t: Transport): (x: Exchange)
    ensures c.service !in table ==>
      x.sent.None? && x.result.Err? && x.result.error.RuntimeError?
      && Contains(x.result.error.message, ToString(c.service))
    ensures c.service in table ==> x == RunHandler(table[c.service], c, prompt, env, t)
  {
    if c.service in table then RunHandler(table[c.service], c, prompt, env, t)
    else
      ContainsMiddle("Didn't find an appropriate handler for the ", ToString(c.service), " service");
      Exchange(None, Err(RuntimeError(
        "Didn't find an appropriate handler for the " + ToString(c.service) + " service")))
  }

  /** `_dispatch` over the class's own table: every caller reaches its service's
      intended handler, so the "no handler" `RuntimeError` cannot occur. */
  function Dispatch(c: Caller, prompt: string, env: Environment, t: Transport): (x: Exchange)
    ensures x == RunHandler(Intended(c.service), c, prompt, env, t)
    ensures x.result.Err? ==> !x.result.error.RuntimeError?
  {
    HandlersTotal(c.service);
    DispatchWith(Handlers, c, prompt, env, t)
  }

  /** `call`: the outcome of dispatching, passed through as it is. Any caller reaches
      its service's intended handler, so the "no handler" error never occurs, the
      xAI service always raises `NotImplementedError`, and every request a provider
      sees is a single user turn with the prompt and the caller's model. */
  function Call(c: Caller, prompt: string, env: Environment, t: Transport): (x: Exchange)
    ensures x == RunHandler(Intended(c.service), c, prompt, env, t)
    ensures x.result.Err? ==> !x.result.error.RuntimeError?
    ensures c.service == xAI ==> x.sent.None? && x.result.Err? && x.result.error.NotImplementedError?
    ensures x.sent.Some? ==> IsUserTurn(x.sent.value, c.model, prompt)
  {
    Dispatch(c, prompt, env, t)
  }
}
