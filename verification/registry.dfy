/** The handler table of `LLMCaller`. Each handler method declares the services it
    serves (`@_handler([...])`), and the class decorator `_collect_handlers` walks the
    class body in order, writing every declared service into one table. Here the
    declarations are an explicit list and the walk is a fold over it. */
module Registry {
  import opened Enums

  /** The handler methods of `LLMCaller`, one tag each. */
  datatype Handler = CallOpenAI | CallAnthropic | CallGoogle | CallAristote | CallUnsupported

  /** One decorated method: its tag and the service list passed to `_handler`. */
  datatype Declaration = Declaration(handler: Handler, services: seq<Service>)

  /** The decorated methods in class-body order. */
  const Declared: seq<Declaration> := [
    Declaration(CallOpenAI, [OpenAI]),
    Declaration(CallAnthropic, [Anthropic]),
    Declaration(CallGoogle, [Google]),
    Declaration(CallAristote, [Aristote]),
    Declaration(CallUnsupported, [xAI])
  ]

  /** The inner loop: write `h` under each of `services` in turn. */
  function Assign(table: map<Service, Handler>, services: seq<Service>, h: Handler): (r: map<Service, Handler>)
    ensures forall s :: s in r <==> s in table || s in services
    ensures forall s :: s in services ==> r[s] == h
    ensures forall s :: s in table && s !in services ==> r[s] == table[s]
    decreases |services|
  {
    if |services| == 0 then table
    else Assign(table[services[0] := h], services[1..], h)
  }

  /** `_collect_handlers`: fold the declarations into a table, later writes winning.
      A service is in the table exactly when some declaration lists it. */
  function CollectHandlers(decls: seq<Declaration>): (r: map<Service, Handler>)
    ensures forall s :: s in r <==> exists i :: 0 <= i < |decls| && s in decls[i].services
    decreases |decls|
  {
    if |decls| == 0 then map[]
    else
      var init := decls[..|decls| - 1];
      var last := decls[|decls| - 1];
      assert forall i :: 0 <= i < |init| ==> init[i] == decls[i];
      Assign(CollectHandlers(init), last.services, last.handler)
  }

  /** Declaration `i` is the last one in `decls` that lists `s`. */
  ghost predicate LastDeclarer(decls: seq<Declaration>, i: int, s: Service) {
    0 <= i < |decls| && s in decls[i].services
    && forall j :: i < j < |decls| ==> s !in decls[j].services
  }

  /** Every service in the table maps to the handler of the last declaration listing it. */
  lemma {:induction false} LastDeclarationWins(decls: seq<Declaration>, s: Service)
    requires s in CollectHandlers(decls)
    ensures exists i :: LastDeclarer(decls, i, s) && CollectHandlers(decls)[s] == decls[i].handler
    decreases |decls|
  {
    var n := |decls|;
    var init, last := decls[..n - 1], decls[n - 1];
    if s in last.services {
      assert LastDeclarer(decls, n - 1, s);
    } else {
      LastDeclarationWins(init, s);
      var i :| LastDeclarer(init, i, s) && CollectHandlers(init)[s] == init[i].handler;
      assert init[i] == decls[i];
      assert LastDeclarer(decls, i, s);
    }
  }

  /** A service listed by exactly one declaration maps to that declaration's handler,
      wherever in the class body it stands. */
  lemma UniqueDeclarationWins(decls: seq<Declaration>, i: int, s: Service)
    requires 0 <= i < |decls| && s in decls[i].services
    requires forall j :: 0 <= j < |decls| && j != i ==> s !in decls[j].services
    ensures s in CollectHandlers(decls) && CollectHandlers(decls)[s] == decls[i].handler
  {
    LastDeclarationWins(decls, s);
  }

  /** The table `LLMCaller._handlers` ends up holding. */
  const Handlers: map<Service, Handler> := CollectHandlers(Declared)

  /** Which handler each service is meant to reach, stated independently of the fold. */
  function Intended(s: Service): Handler {
    match s
    case OpenAI => CallOpenAI
    case Anthropic => CallAnthropic
    case Google => CallGoogle
    case Aristote => CallAristote
    case xAI => CallUnsupported
  }

  /** The index of the declaration that lists `s`. */
  function DeclarationIndex(s: Service): (i: nat)
    ensures i < |Declared| && s in Declared[i].services
    ensures forall j :: 0 <= j < |Declared| && s in Declared[j].services ==> j == i
  {
    match s
    case OpenAI => 0
    case Anthropic => 1
    case Google => 2
    case Aristote => 3
    case xAI => 4
  }

  /** The table is total and maps each service to its intended handler. */
  lemma HandlersTotal(s: Service)
    ensures s in Handlers
    ensures Handlers[s] == Intended(s)
  {
    var i := DeclarationIndex(s);
    UniqueDeclarationWins(Declared, i, s);
  }
}
