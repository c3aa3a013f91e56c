/** The first generation of the hook package (hookserver.go): a HookServer
    configured by functional options, a sync hook that rejects the whole
    request on the first child it cannot decode, and a customize hook. Both
    hooks insist on POST and echo error details only in debug mode. */
module HookServer {
  import opened Wrappers
  import opened Kinds
  import opened Runtime
  import opened Http
  import opened Customize
  import opened ChildSets

  /** Identity of a Logger value; what it prints is not modelled. */
  datatype Logger = DefaultLogger | CustomLogger(name: string)

  /** One element of `patches` (a map[string]interface{}), passed through untouched. */
  type Patch(==)

  /** The sync hook's JSON envelope. */
  datatype RawCompositeRequest = RawCompositeRequest(parent: Bytes, children: WireChildren, operation: string)

  datatype RawCompositeResponse = RawCompositeResponse(status: Bytes, children: map<string, seq<Bytes>>, patches: seq<Patch>)

  /** The customize hook's JSON envelope. */
  datatype RawCustomizeRequest = RawCustomizeRequest(controller: Bytes, parent: Bytes)

  datatype DecodedCompositeRequest<O> = DecodedCompositeRequest(parent: O, children: Buckets<O>, operation: string)

  datatype DecodedCompositeResponse<O> = DecodedCompositeResponse(status: O, children: Buckets<O>, patches: seq<Patch>)

  datatype CustomizeRequest<O> = CustomizeRequest(controller: Bytes, parent: O)

  /** The user's handlers; a Go handler never returns a nil response together with a nil error. */
  type SyncHandler<!O> = DecodedCompositeRequest<O> -> Result<DecodedCompositeResponse<O>>
  type CustomizeHandler<!O> = CustomizeRequest<O> -> Result<CustomizeResponse>

  /** encoding/json decoding of a request body into an envelope. */
  type SyncEnvelope = Bytes -> Result<RawCompositeRequest>
  type CustomizeEnvelope = Bytes -> Result<RawCustomizeRequest>

  /** The runtime.Scheme, as far as the hooks use it: its universal decoder and its JSON serializer. */
  datatype Scheme<!O> = Scheme(decoder: Decoder<O>, encoder: Encoder<O>)

  // ---- writeError and checkMethod ----

  /** writeError's message: the error text in debug mode, the generic category otherwise. */
  function ErrorMessage(code: int, err: string, debug: bool): (msg: string)
    ensures debug ==> msg == err
    ensures !debug && code == StatusBadRequest ==> msg == "bad request"
    ensures !debug && code == StatusInternalServerError ==> msg == "internal server error"
    ensures !debug && code == StatusMethodNotAllowed ==> msg == "method not allowed"
    ensures !debug && code !in {StatusBadRequest, StatusInternalServerError, StatusMethodNotAllowed} ==>
      msg == StatusText(code)
  {
    if debug then err else CategoryMessage(code)
  }

  /** writeError: reply with `code`, unchanged, and the chosen message. */
  function WriteError<R>(code: int, err: string, debug: bool): (o: Outcome<R>)
    ensures o.Reject? && o.code == code
    ensures debug ==> o.msg == err
    ensures !debug && code == StatusBadRequest ==> o.msg == "bad request"
    ensures !debug && code == StatusInternalServerError ==> o.msg == "internal server error"
    ensures !debug && code == StatusMethodNotAllowed ==> o.msg == "method not allowed"
    ensures !debug && code !in {StatusBadRequest, StatusInternalServerError, StatusMethodNotAllowed} ==>
      o.msg == StatusText(code)
  {
    Reject(code, ErrorMessage(code, err, debug))
  }

  /** With debug off, the reply does not depend on the error at all: no detail leaks. */
  lemma WriteErrorHidesDetail<R>(code: int, e1: string, e2: string)
    ensures WriteError<R>(code, e1, false) == WriteError<R>(code, e2, false)
  {
  }

  /** checkMethod: None when the method is the expected one, otherwise the 405 reply it writes. */
  function CheckMethod<R>(r: Request, expected: string, debug: bool): (rej: Option<Outcome<R>>)
    ensures rej.None? <==> r.httpMethod == expected
    ensures rej.Some? ==> rej.value.Reject? && rej.value.code == StatusMethodNotAllowed
  {
    if r.httpMethod != expected then
      Some(WriteError(StatusMethodNotAllowed, "expected " + expected + " method, got " + r.httpMethod, debug))
    else None
  }

  // ---- the sync hook ----

  /** syncHookHandler: the fields captured at registration time. `isParent`
      is the type assertion to the handler's parent type. */
  datatype SyncHookHandler<!O> = SyncHookHandler(
    decoder: Decoder<O>,
    encoder: Encoder<O>,
    isParent: O -> bool,
    handler: SyncHandler<O>,
    logger: Logger,
    debug: bool)

  /** The child-decode loop of the sync hook: decode every blob, wire list by
      wire list, and bucket it under its decoded kind; the first failure
      fails the whole batch. */
  method DecodeChildren<O>(dec: Decoder<O>, children: WireChildren) returns (r: Result<Buckets<O>>)
    ensures DecodeAll(dec, Flatten(children)).Err? ==> r == Err(DecodeAll(dec, Flatten(children)).error)
    ensures DecodeAll(dec, Flatten(children)).Ok? ==> r == Ok(Group(DecodeAll(dec, Flatten(children)).value))
  {
    var m: Buckets<O> := map[];
    ghost var pairs: seq<(GVK, O)> := [];
    var i := 0;
    while i < |children|
      invariant 0 <= i <= |children|
      invariant DecodeAll(dec, Flatten(children[..i])) == Ok(pairs)
      invariant m == Group(pairs)
    {
      var rawList := children[i].1;
      ghost var before := Flatten(children[..i]);
      var j := 0;
      assert before + rawList[..j] == before;
      while j < |rawList|
        invariant 0 <= j <= |rawList|
        invariant DecodeAll(dec, before + rawList[..j]) == Ok(pairs)
        invariant m == Group(pairs)
      {
        var d := dec(rawList[j]);
        DecodeAllStep(dec, before, rawList, j);
        if d.Err? {
          r := Err(d.error);
          DecodeAllFailsInside(dec, children, i, j);
          return;
        }
        var obj, gvk := d.value.0, d.value.1;
        GroupSnoc(pairs, gvk, obj);
        m := m[gvk := Lookup(m, gvk) + [obj]];
        pairs := pairs + [(gvk, obj)];
        j := j + 1;
      }
      assert rawList[..j] == rawList;
      FlattenStep(children, i);
      i := i + 1;
    }
    assert children[..i] == children;
    r := Ok(m);
  }

  /** What the sync hook replies once the handler has been called with `req`:
      500 for a handler error, a status-encode error or any child-encode
      error, and otherwise the encoded status, children and the handler's patches. */
  ghost predicate SyncReply<O>(sh: SyncHookHandler<O>, req: DecodedCompositeRequest<O>, out: Outcome<RawCompositeResponse>)
  {
    match sh.handler(req)
    case Err(e) => out == WriteError(StatusInternalServerError, "SyncHook: handler error: " + e, sh.debug)
    case Ok(resp) =>
      match sh.encoder(resp.status)
      case Err(e) => out == WriteError(StatusInternalServerError, "SyncHook: error encoding status: " + e, sh.debug)
      case Ok(status) =>
        if AllEncodable(sh.encoder, resp.children) then
          && out.Respond?
          && out.body.status == status
          && EncodesChildren(sh.encoder, resp.children, out.body.children)
          && out.body.patches == resp.patches
        else
          exists e :: ChildFails(sh.encoder, resp.children, e)
            && out == WriteError(StatusInternalServerError, "SyncHook: error encoding child: " + e, sh.debug)
  }

  /** syncHookHandler.ServeHTTP. `calls` lists the requests the user handler
      was invoked with (at most one). */
  method ServeSync<O>(sh: SyncHookHandler<O>, json: SyncEnvelope, r: Request)
    returns (out: Outcome<RawCompositeResponse>, calls: seq<DecodedCompositeRequest<O>>)
    // the short-circuit ladder, in the order the handler checks it
    ensures r.httpMethod != "POST" ==>
      calls == [] && out == WriteError(StatusMethodNotAllowed, "expected POST method, got " + r.httpMethod, sh.debug)
    ensures r.httpMethod == "POST" ==>
      match json(r.body)
      case Err(e) =>
        calls == [] && out == WriteError(StatusBadRequest, "SyncHook: error decoding request: " + e, sh.debug)
      case Ok(raw) =>
        match sh.decoder(raw.parent)
        case Err(e) =>
          calls == [] && out == WriteError(StatusBadRequest, "SyncHook: error decoding parent: " + e, sh.debug)
        case Ok(p) =>
          if !sh.isParent(p.0) then
            calls == [] && out == WriteError(StatusBadRequest, "SyncHook: type assertion failure for parent", sh.debug)
          else
            match DecodeAll(sh.decoder, Flatten(raw.children))
            case Err(e) =>
              calls == [] && out == WriteError(StatusBadRequest, "SyncHook: error decoding child: " + e, sh.debug)
            case Ok(pairs) =>
              var req := DecodedCompositeRequest(p.0, Group(pairs), raw.operation);
              calls == [req] && SyncReply(sh, req, out)
    // consequences
    ensures |calls| <= 1
    ensures calls == [] <==> out.Reject? && out.code in {StatusBadRequest, StatusMethodNotAllowed}
    ensures out.Reject? ==> out.code in {StatusBadRequest, StatusMethodNotAllowed, StatusInternalServerError}
  {
    calls := [];
    var rej := CheckMethod<RawCompositeResponse>(r, "POST", sh.debug);
    if rej.Some? {
      out := rej.value;
      return;
    }
    var env := json(r.body);
    if env.Err? {
      out := WriteError(StatusBadRequest, "SyncHook: error decoding request: " + env.error, sh.debug);
      return;
    }
    var raw := env.value;
    var parentObj := sh.decoder(raw.parent);
    if parentObj.Err? {
      out := WriteError(StatusBadRequest, "SyncHook: error decoding parent: " + parentObj.error, sh.debug);
      return;
    }
    var parent := parentObj.value.0;
    if !sh.isParent(parent) {
      out := WriteError(StatusBadRequest, "SyncHook: type assertion failure for parent", sh.debug);
      return;
    }
    var childrenMap := DecodeChildren(sh.decoder, raw.children);
    if childrenMap.Err? {
      out := WriteError(StatusBadRequest, "SyncHook: error decoding child: " + childrenMap.error, sh.debug);
      return;
    }
    var req := DecodedCompositeRequest(parent, childrenMap.value, raw.operation);
    calls := [req];
    var decodedResp := sh.handler(req);
    if decodedResp.Err? {
      out := WriteError(StatusInternalServerError, "SyncHook: handler error: " + decodedResp.error, sh.debug);
      return;
    }
    var resp := decodedResp.value;
    var statusBytes := sh.encoder(resp.status);
    if statusBytes.Err? {
      out := WriteError(StatusInternalServerError, "SyncHook: error encoding status: " + statusBytes.error, sh.debug);
      return;
    }
    var encodedChildren := EncodeChildren(sh.encoder, resp.children);
    if encodedChildren.Err? {
      out := WriteError(StatusInternalServerError, "SyncHook: error encoding child: " + encodedChildren.error, sh.debug);
      return;
    }
    out := Respond(RawCompositeResponse(statusBytes.value, encodedChildren.value, resp.patches));
  }

  // ---- the customize hook ----

  datatype CustomizeHookHandler<!O> = CustomizeHookHandler(
    decoder: Decoder<O>,
    isParent: O -> bool,
    handler: CustomizeHandler<O>,
    logger: Logger,
    debug: bool)

  /** customizeHookHandler.ServeHTTP: the controller blob reaches the handler
      untouched and the handler's response is written unchanged. */
  method ServeCustomize<O>(ch: CustomizeHookHandler<O>, json: CustomizeEnvelope, r: Request)
    returns (out: Outcome<CustomizeResponse>, calls: seq<CustomizeRequest<O>>)
    ensures r.httpMethod != "POST" ==>
      calls == [] && out == WriteError(StatusMethodNotAllowed, "expected POST method, got " + r.httpMethod, ch.debug)
    ensures r.httpMethod == "POST" ==>
      match json(r.body)
      case Err(e) =>
        calls == [] && out == WriteError(StatusBadRequest, "CustomizeHook: error decoding request: " + e, ch.debug)
      case Ok(raw) =>
        match ch.decoder(raw.parent)
        case Err(e) =>
          calls == [] && out == WriteError(StatusBadRequest, "CustomizeHook: error decoding parent: " + e, ch.debug)
        case Ok(p) =>
          if !ch.isParent(p.0) then
            calls == [] && out == WriteError(StatusBadRequest, "CustomizeHook: type assertion failure for parent", ch.debug)
          else
            var req := CustomizeRequest(raw.controller, p.0);
            calls == [req] &&
            match ch.handler(req)
            case Err(e) => out == WriteError(StatusInternalServerError, "CustomizeHook: handler error: " + e, ch.debug)
            case Ok(resp) => out == Respond(resp)
    ensures |calls| <= 1
    ensures calls == [] <==> out.Reject? && out.code in {StatusBadRequest, StatusMethodNotAllowed}
  {
    calls := [];
    var rej := CheckMethod<CustomizeResponse>(r, "POST", ch.debug);
    if rej.Some? {
      out := rej.value;
      return;
    }
    var env := json(r.body);
    if env.Err? {
      out := WriteError(StatusBadRequest, "CustomizeHook: error decoding request: " + env.error, ch.debug);
      return;
    }
    var raw := env.value;
    var parentObj := ch.decoder(raw.parent);
    if parentObj.Err? {
      out := WriteError(StatusBadRequest, "CustomizeHook: error decoding parent: " + parentObj.error, ch.debug);
      return;
    }
    var parent := parentObj.value.0;
    if !ch.isParent(parent) {
      out := WriteError(StatusBadRequest, "CustomizeHook: type assertion failure for parent", ch.debug);
      return;
    }
    var req := CustomizeRequest(raw.controller, parent);
    calls := [req];
    var resp := ch.handler(req);
    if resp.Err? {
      out := WriteError(StatusInternalServerError, "CustomizeHook: handler error: " + resp.error, ch.debug);
      return;
    }
    out := Respond(resp.value);
  }

  // ---- HookServer and its functional options ----

  /** An http.Handler that the options register on the server's mux. */
  datatype Endpoint<!O> = SyncEndpoint(sync: SyncHookHandler<O>) | CustomizeEndpoint(customize: CustomizeHookHandler<O>)

  /** The options this package offers (WithLogger, WithDebug, WithSyncHook,
      WithCustomizeHook); the hook options carry the parent type's assertion. */
  datatype ServerOption<!O> =
    | WithLogger(logger: Logger)
    | WithDebug(debug: bool)
    | WithSyncHook(path: string, isParent: O -> bool, syncHandler: SyncHandler<O>)
    | WithCustomizeHook(path: string, isParent: O -> bool, customizeHandler: CustomizeHandler<O>)
  {
    predicate IsHook() { WithSyncHook? || WithCustomizeHook? }
  }

  /** The mutable part of a HookServer: logger, debug flag and the mux's
      registrations in the order they were made. */
  datatype Config<!O> = Config(logger: Logger, debug: bool, routes: seq<(string, Endpoint<O>)>)

  /** What NewHookServer starts from: the default logger, debug off, an empty mux. */
  function Defaults<O>(): (c: Config<O>)
  {
    Config(DefaultLogger, false, [])
  }

  /** The endpoint a hook option registers, built from the scheme and the
      logger and debug values given. */
  function EndpointFor<O>(scheme: Scheme<O>, opt: ServerOption<O>, logger: Logger, debug: bool): (e: Endpoint<O>)
    requires opt.IsHook()
  {
    match opt
    case WithSyncHook(_, isParent, h) =>
      SyncEndpoint(SyncHookHandler(scheme.decoder, scheme.encoder, isParent, h, logger, debug))
    case WithCustomizeHook(_, isParent, h) =>
      CustomizeEndpoint(CustomizeHookHandler(scheme.decoder, isParent, h, logger, debug))
  }

  /** Running one option against the server: a hook option reads the
      server's current logger and debug flag and appends a registration. */
  function ApplyOption<O>(scheme: Scheme<O>, c: Config<O>, opt: ServerOption<O>): (next: Config<O>)
    ensures next.logger == if opt.WithLogger? then opt.logger else c.logger
    ensures next.debug == if opt.WithDebug? then opt.debug else c.debug
    ensures next.routes == c.routes + if opt.IsHook() then [(opt.path, EndpointFor(scheme, opt, c.logger, c.debug))] else []
  {
    match opt
    case WithLogger(l) => c.(logger := l)
    case WithDebug(d) => c.(debug := d)
    case _ => c.(routes := c.routes + [(opt.path, EndpointFor(scheme, opt, c.logger, c.debug))])
  }

  /** The server after NewHookServer has run the options in order. */
  function Configure<O>(scheme: Scheme<O>, opts: seq<ServerOption<O>>): (c: Config<O>)
    ensures c.logger == LastLogger(opts)
    ensures c.debug == LastDebug(opts)
    ensures |c.routes| == HookCount(opts)
  {
    if opts == [] then Defaults()
    else ApplyOption(scheme, Configure(scheme, opts[..|opts| - 1]), opts[|opts| - 1])
  }

  /** The debug value in force after `opts`: the last WithDebug, or false. */
  function LastDebug<O>(opts: seq<ServerOption<O>>): bool
  {
    if opts == [] then false
    else if opts[|opts| - 1].WithDebug? then opts[|opts| - 1].debug
    else LastDebug(opts[..|opts| - 1])
  }

  /** The logger in force after `opts`: the last WithLogger, or the default logger. */
  function LastLogger<O>(opts: seq<ServerOption<O>>): Logger
  {
    if opts == [] then DefaultLogger
    else if opts[|opts| - 1].WithLogger? then opts[|opts| - 1].logger
    else LastLogger(opts[..|opts| - 1])
  }

  /** Number of hook registrations among `opts`. */
  function HookCount<O>(opts: seq<ServerOption<O>>): nat
  {
    if opts == [] then 0 else HookCount(opts[..|opts| - 1]) + (if opts[|opts| - 1].IsHook() then 1 else 0)
  }

  /** Registrations are only ever appended: the registrations made by a
      prefix of the options survive every later option. */
  lemma {:induction false} RoutesGrow<O>(scheme: Scheme<O>, opts: seq<ServerOption<O>>, n: nat)
    requires n <= |opts|
    ensures Configure(scheme, opts[..n]).routes <= Configure(scheme, opts).routes
  {
    if n < |opts| {
      var init := opts[..|opts| - 1];
      assert init[..n] == opts[..n];
      RoutesGrow(scheme, init, n);
      assert opts[..|opts|] == opts;
    } else {
      assert opts[..n] == opts;
    }
  }

  /** A hook registered by option `i` captures the logger and debug values in
      force when it ran, not the final ones: later WithLogger and WithDebug
      options do not reach it. */
  lemma RegistrationCaptures<O>(scheme: Scheme<O>, opts: seq<ServerOption<O>>, i: nat)
    requires i < |opts| && opts[i].IsHook()
    ensures HookCount(opts[..i]) < |Configure(scheme, opts).routes|
    ensures Configure(scheme, opts).routes[HookCount(opts[..i])] ==
      (opts[i].path, EndpointFor(scheme, opts[i], LastLogger(opts[..i]), LastDebug(opts[..i])))
  {
    var pre := opts[..i + 1];
    assert pre[..i] == opts[..i];
    RoutesGrow(scheme, opts, i + 1);
  }

  /** The HookServer. `routes` stands for the registrations on its ServeMux. */
  class HookServer<!O> {
    const addr: string
    const scheme: Scheme<O>
    var logger: Logger
    var debug: bool
    var routes: seq<(string, Endpoint<O>)>

    function State(): Config<O>
      reads this
    {
      Config(logger, debug, routes)
    }

    /** NewHookServer: start from the defaults and apply the options in order. */
    constructor (addr: string, scheme: Scheme<O>, opts: seq<ServerOption<O>>)
      ensures this.addr == addr && this.scheme == scheme
      ensures State() == Configure(scheme, opts)
    {
      this.addr := addr;
      this.scheme := scheme;
      logger := DefaultLogger;
      debug := false;
      routes := [];
      new;
      var i := 0;
      while i < |opts|
        invariant 0 <= i <= |opts|
        invariant State() == Configure(scheme, opts[..i])
      {
        assert opts[..i + 1][..i] == opts[..i];
        Apply(opts[i]);
        i := i + 1;
      }
      assert opts[..i] == opts;
    }

    /** Running one option closure against the server. */
    method Apply(opt: ServerOption<O>)
      modifies this
      ensures State() == ApplyOption(scheme, old(State()), opt)
    {
      match opt
      case WithLogger(l) =>
        logger := l;
      case WithDebug(d) =>
        debug := d;
      case WithSyncHook(path, isParent, h) =>
        var sh := SyncHookHandler(scheme.decoder, scheme.encoder, isParent, h, logger, debug);
        routes := routes + [(path, SyncEndpoint(sh))];
      case WithCustomizeHook(path, isParent, h) =>
        var ch := CustomizeHookHandler(scheme.decoder, isParent, h, logger, debug);
        routes := routes + [(path, CustomizeEndpoint(ch))];
    }
  }
}
