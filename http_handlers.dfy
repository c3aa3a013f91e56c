/** The second generation of the hook package (http_handlers.go): the sync
    hook drops and logs children it cannot decode instead of failing, carries
    the finalizing/finalized flags, never checks the HTTP method, and echoes
    error details when the logger is enabled at debug level. */
module HttpHandlers {
  import opened Wrappers
  import opened Kinds
  import opened Runtime
  import opened Http
  import opened Customize
  import opened ChildSets

  /** The sync hook's JSON envelope. */
  datatype RawCompositeRequest = RawCompositeRequest(parent: Bytes, children: WireChildren, finalizing: bool)

  datatype RawCompositeResponse = RawCompositeResponse(status: Bytes, children: map<string, seq<Bytes>>, finalized: bool)

  /** The customize hook's JSON envelope. */
  datatype RawCustomizeRequest = RawCustomizeRequest(controller: Bytes, parent: Bytes)

  /** composite.SyncRequest. */
  datatype SyncRequest<O> = SyncRequest(parent: O, children: Buckets<O>, finalizing: bool)

  /** composite.CompositeResponse. */
  datatype CompositeResponse<O> = CompositeResponse(status: O, children: Buckets<O>, finalized: bool)

  /** customize.Request. */
  datatype CustomizeRequest<O> = CustomizeRequest(controller: Bytes, parent: O)

  /** composite.SyncHandler and customize.Handler; a Go handler never returns
      a nil response together with a nil error. */
  type SyncHandler<!O> = SyncRequest<O> -> Result<CompositeResponse<O>>
  type CustomizeHandler<!O> = CustomizeRequest<O> -> Result<CustomizeResponse>

  /** encoding/json decoding of a request body into an envelope. */
  type SyncEnvelope = Bytes -> Result<RawCompositeRequest>
  type CustomizeEnvelope = Bytes -> Result<RawCustomizeRequest>

  // ---- writeError ----

  /** writeError's message: the generic category, followed by ": " and the
      error text when the logger is enabled at debug level. */
  function ErrorMessage(code: int, err: string, debugLogging: bool): (msg: string)
    ensures CategoryMessage(code) <= msg
    ensures msg == CategoryMessage(code) <==> !debugLogging
    ensures debugLogging ==> msg[|CategoryMessage(code)|..] == ": " + err
  {
    var msg := CategoryMessage(code);
    if debugLogging then msg + ": " + err else msg
  }

  /** writeError: the code is passed through, the message always begins with
      the category, and it is exactly the category when debug logging is off. */
  function WriteError<R>(code: int, err: string, debugLogging: bool): (o: Outcome<R>)
    ensures o.Reject? && o.code == code
    ensures CategoryMessage(code) <= o.msg
    ensures o.msg == CategoryMessage(code) <==> !debugLogging
    ensures debugLogging ==> o.msg[|CategoryMessage(code)|..] == ": " + err
  {
    Reject(code, ErrorMessage(code, err, debugLogging))
  }

  // ---- the sync hook ----

  /** syncHandler. `debugLogging` is whether its *slog.Logger is enabled at
      debug level; `isParent` and `isClientObject` are the type assertions
      to the parent type and to client.Object. */
  datatype SyncHTTPHandler<!O> = SyncHTTPHandler(
    decoder: Decoder<O>,
    encoder: Encoder<O>,
    isParent: O -> bool,
    isClientObject: O -> bool,
    handler: SyncHandler<O>,
    debugLogging: bool)

  /** The child-decode loop: a child that fails to decode or is not a
      client.Object is logged and skipped; every other child is appended to
      the bucket of its decoded kind. `skipped` lists the logged blobs. */
  method ObserveChildren<O>(dec: Decoder<O>, isObject: O -> bool, children: WireChildren)
    returns (observed: Buckets<O>, skipped: seq<Bytes>)
    ensures observed == Group(Accepted(dec, isObject, Flatten(children)))
    ensures skipped == Skipped(dec, isObject, Flatten(children))
  {
    observed := map[];
    skipped := [];
    ghost var pairs: seq<(GVK, O)> := [];
    var i := 0;
    while i < |children|
      invariant 0 <= i <= |children|
      invariant pairs == Accepted(dec, isObject, Flatten(children[..i]))
      invariant skipped == Skipped(dec, isObject, Flatten(children[..i]))
      invariant observed == Group(pairs)
    {
      var rawList := children[i].1;
      ghost var before := Flatten(children[..i]);
      var j := 0;
      assert before + rawList[..j] == before;
      while j < |rawList|
        invariant 0 <= j <= |rawList|
        invariant pairs == Accepted(dec, isObject, before + rawList[..j])
        invariant skipped == Skipped(dec, isObject, before + rawList[..j])
        invariant observed == Group(pairs)
      {
        var rawChild := rawList[j];
        assert before + rawList[..j + 1] == (before + rawList[..j]) + [rawChild];
        AcceptedSkippedSnoc(dec, isObject, before + rawList[..j], rawChild);
        var d := dec(rawChild);
        if d.Err? {
          skipped := skipped + [rawChild];
          j := j + 1;
          continue;
        }
        var childObj, childGVK := d.value.0, d.value.1;
        if !isObject(childObj) {
          skipped := skipped + [rawChild];
          j := j + 1;
          continue;
        }
        GroupSnoc(pairs, childGVK, childObj);
        observed := observed[childGVK := Lookup(observed, childGVK) + [childObj]];
        pairs := pairs + [(childGVK, childObj)];
        j := j + 1;
      }
      assert rawList[..j] == rawList;
      FlattenStep(children, i);
      i := i + 1;
    }
    assert children[..i] == children;
  }

  /** What the sync hook replies once the handler has been called with `req`:
      500 for a handler error, a status-encode error or any child-encode
      error, and otherwise the encoded status and children and the handler's
      finalized flag. */
  ghost predicate SyncReply<O>(sh: SyncHTTPHandler<O>, req: SyncRequest<O>, out: Outcome<RawCompositeResponse>)
  {
    match sh.handler(req)
    case Err(e) => out == WriteError(StatusInternalServerError, "SyncHook: handler error: " + e, sh.debugLogging)
    case Ok(resp) =>
      match sh.encoder(resp.status)
      case Err(e) => out == WriteError(StatusInternalServerError, "SyncHook: error encoding status: " + e, sh.debugLogging)
      case Ok(status) =>
        if AllEncodable(sh.encoder, resp.children) then
          && out.Respond?
          && out.body.status == status
          && EncodesChildren(sh.encoder, resp.children, out.body.children)
          && out.body.finalized == resp.finalized
        else
          exists e :: ChildFails(sh.encoder, resp.children, e)
            && out == WriteError(StatusInternalServerError, "SyncHook: error encoding child: " + e, sh.debugLogging)
  }

  /** syncHandler.ServeHTTP. `calls` lists the requests the user handler was
      invoked with (at most one); `skipped` the child blobs logged and dropped. */
  method ServeSync<O>(sh: SyncHTTPHandler<O>, json: SyncEnvelope, r: Request)
    returns (out: Outcome<RawCompositeResponse>, calls: seq<SyncRequest<O>>, skipped: seq<Bytes>)
    // the short-circuit ladder, in the order the handler checks it
    ensures match json(r.body)
      case Err(e) =>
        calls == [] && out == WriteError(StatusBadRequest, "SyncHook: error decoding request: " + e, sh.debugLogging)
      case Ok(raw) =>
        match sh.decoder(raw.parent)
        case Err(e) =>
          calls == [] && out == WriteError(StatusBadRequest, "SyncHook: error decoding parent: " + e, sh.debugLogging)
        case Ok(p) =>
          if !sh.isParent(p.0) then
            calls == [] && out == WriteError(StatusBadRequest, "SyncHook: type assertion failure for parent", sh.debugLogging)
          else
            var blobs := Flatten(raw.children);
            var req := SyncRequest(p.0, Group(Accepted(sh.decoder, sh.isClientObject, blobs)), raw.finalizing);
            && calls == [req]
            && skipped == Skipped(sh.decoder, sh.isClientObject, blobs)
            && SyncReply(sh, req, out)
    // consequences
    ensures |calls| <= 1
    ensures calls == [] <==> out.Reject? && out.code == StatusBadRequest
    ensures out.Reject? ==> out.code in {StatusBadRequest, StatusInternalServerError}
  {
    calls, skipped := [], [];
    var env := json(r.body);
    if env.Err? {
      out := WriteError(StatusBadRequest, "SyncHook: error decoding request: " + env.error, sh.debugLogging);
      return;
    }
    var rawReq := env.value;
    var p := sh.decoder(rawReq.parent);
    if p.Err? {
      out := WriteError(StatusBadRequest, "SyncHook: error decoding parent: " + p.error, sh.debugLogging);
      return;
    }
    var parent := p.value.0;
    if !sh.isParent(parent) {
      out := WriteError(StatusBadRequest, "SyncHook: type assertion failure for parent", sh.debugLogging);
      return;
    }
    var observedChildren;
    observedChildren, skipped := ObserveChildren(sh.decoder, sh.isClientObject, rawReq.children);
    var req := SyncRequest(parent, observedChildren, rawReq.finalizing);
    calls := [req];
    var result := sh.handler(req);
    if result.Err? {
      out := WriteError(StatusInternalServerError, "SyncHook: handler error: " + result.error, sh.debugLogging);
      return;
    }
    var resp := result.value;
    var statusBytes := sh.encoder(resp.status);
    if statusBytes.Err? {
      out := WriteError(StatusInternalServerError, "SyncHook: error encoding status: " + statusBytes.error, sh.debugLogging);
      return;
    }
    var desiredChildren := EncodeChildren(sh.encoder, resp.children);
    if desiredChildren.Err? {
      out := WriteError(StatusInternalServerError, "SyncHook: error encoding child: " + desiredChildren.error, sh.debugLogging);
      return;
    }
    out := Respond(RawCompositeResponse(statusBytes.value, desiredChildren.value, resp.finalized));
  }

  // ---- the customize hook ----

  /** customizeHTTPHandler. */
  datatype CustomizeHTTPHandler<!O> = CustomizeHTTPHandler(
    decoder: Decoder<O>,
    isParent: O -> bool,
    handler: CustomizeHandler<O>,
    debugLogging: bool)

  /** customizeHTTPHandler.ServeHTTP: the controller blob reaches the handler
      untouched and the handler's response is written unchanged. */
  method ServeCustomize<O>(ch: CustomizeHTTPHandler<O>, json: CustomizeEnvelope, r: Request)
    returns (out: Outcome<CustomizeResponse>, calls: seq<CustomizeRequest<O>>)
    ensures match json(r.body)
      case Err(e) =>
        calls == [] && out == WriteError(StatusBadRequest, "CustomizeHook: error decoding request: " + e, ch.debugLogging)
      case Ok(raw) =>
        match ch.decoder(raw.parent)
        case Err(e) =>
          calls == [] && out == WriteError(StatusBadRequest, "CustomizeHook: error decoding parent: " + e, ch.debugLogging)
        case Ok(p) =>
          if !ch.isParent(p.0) then
            calls == [] && out == WriteError(StatusBadRequest, "CustomizeHook: type assertion failure for parent", ch.debugLogging)
          else
            var req := CustomizeRequest(raw.controller, p.0);
            calls == [req] &&
            match ch.handler(req)
            case Err(e) => out == WriteError(StatusInternalServerError, "CustomizeHook: handler error: " + e, ch.debugLogging)
            case Ok(resp) => out == Respond(resp)
    ensures |calls| <= 1
    ensures calls == [] <==> out.Reject? && out.code == StatusBadRequest
    ensures out.Reject? ==> out.code in {StatusBadRequest, StatusInternalServerError}
  {
    calls := [];
    var env := json(r.body);
    if env.Err? {
      out := WriteError(StatusBadRequest, "CustomizeHook: error decoding request: " + env.error, ch.debugLogging);
      return;
    }
    var rawReq := env.value;
    var p := ch.decoder(rawReq.parent);
    if p.Err? {
      out := WriteError(StatusBadRequest, "CustomizeHook: error decoding parent: " + p.error, ch.debugLogging);
      return;
    }
    var parent := p.value.0;
    if !ch.isParent(parent) {
      out := WriteError(StatusBadRequest, "CustomizeHook: type assertion failure for parent", ch.debugLogging);
      return;
    }
    var req := CustomizeRequest(rawReq.controller, parent);
    calls := [req];
    var resp := ch.handler(req);
    if resp.Err? {
      out := WriteError(StatusInternalServerError, "CustomizeHook: handler error: " + resp.error, ch.debugLogging);
      return;
    }
    out := Respond(resp.value);
  }
}
