# go-metacontroller hook pipeline in Dafny

go-metacontroller is a Go framework for writing Metacontroller webhooks. A
CompositeController sends its sync hook a JSON request holding the parent
object and the observed children, filed under string keys of the form
`group/version/kind`. The hook decodes the request into typed Kubernetes
objects, bucketing the children by their decoded GroupVersionKind. It then
calls the user's handler and re-encodes the handler's status and desired
children into the same keyed wire form. A customize hook does the same with
a smaller request and response shape.

This project models that pipeline in both generations found in the
repository:

- `hookserver.go` (module `HookServer`):
  - a `HookServer` configured by functional options;
  - a sync hook that insists on POST and fails the whole request on the first
    undecodable child;
  - a customize hook;
  - error details are echoed only in debug mode.
- `http_handlers.go` (module `HttpHandlers`):
  - no method check;
  - a sync hook that logs and drops bad children;
  - error categories that gain ": " and the error text when the logger is at
    debug level.

Shared parts:

- `Kinds`: `KeyForGVK` and its inverse.
- `ChildSets`: the child-set specifications, i.e. grouping by kind, the dropped
  and kept children, and the fail-fast decode. It also holds the all-or-nothing
  child-encode loop, because both generations share it.
- `Http`: status codes and the category messages.
- `Generations`: relates the two generations.
- `Microservice`: the example controller's `sync`, which turns a Microservice
  into one Deployment and one Service.

Modelling conventions:

- Kubernetes objects are a type parameter `O`.
- These collaborators are function-valued parameters or fields:
  - the scheme's decoder and encoder;
  - the type assertions to the parent type and to `client.Object`;
  - the user handlers;
  - `encoding/json`'s envelope parsing.
- The wire request's `children` is a sequence of (key, blobs) pairs, so every
  property holds for every Go map iteration order.
- The encode loop picks the next response bucket with `:|`, so its contract
  holds for every visiting order.
- A ServeHTTP call is a method that returns:
  - an `Outcome`, which is either a complete success body or one error reply
    (code, message);
  - the list of requests the user handler was called with, which is empty or
    holds one request;
  - in the second generation, also the child blobs it logged and skipped.
- `HookServer` is a class whose constructor applies the options in order. The
  `mux.Handle` registrations are a `routes` sequence.

The two generations differ on child-decode failures:

- `hookserver.go` fails the request with 400 on the first child that does not
  decode (hookserver.go:301-307).
- Only `http_handlers.go` drops the child and carries on.

## Model

| member | source | states |
|---|---|---|
| Kinds.KeyForGVK | hookserver.go:256-261 | the key is the group and a '/' (for a non-empty group) followed by the version, a '/' and the kind, and nothing else |
| Kinds.KeyForGVKSplits | hookserver.go:256-261 | for kinds whose names hold no '/', splitting the key on '/' gives [version, kind] for the core group and [group, version, kind] otherwise |
| Kinds.KeyForGVKSlashCount | hookserver.go:256-261 | the key of a slash-free kind has exactly one '/' for the core group and two otherwise |
| Kinds.ParseKeyOfKeyForGVK | hookserver.go:256-261 | parsing the key of a slash-free kind gives back that kind |
| Kinds.KeyForGVKOfParseKey | hookserver.go:256-261 | every key that parses is the exact key of the slash-free kind it parses to |
| Kinds.KeyForGVKInjective | hookserver.go:256-261 | distinct slash-free kinds have distinct keys |
| Http.CategoryMessageDiffersOnlyForHandlerCodes | hookserver.go:45-54 | the category message equals the standard status text exactly for codes other than 400, 405 and 500 |
| HookServer.ErrorMessage | hookserver.go:41-55 | with debug on, the message is the error text; with debug off, it is "bad request", "internal server error" or "method not allowed" for 400, 500 and 405, and the standard status text for any other code |
| HookServer.WriteError | hookserver.go:39-57 | the reply carries the given code; with debug on, the message is the error text; with debug off, the message is "bad request", "internal server error" or "method not allowed" for 400, 500 and 405, and the standard status text for any other code |
| HookServer.WriteErrorHidesDetail | hookserver.go:41-55 | with debug off, the reply does not depend on the error |
| HookServer.CheckMethod | hookserver.go:61-67 | there is no rejection exactly when the request's method is the expected one; a rejection is a 405 reply |
| HookServer.DecodeChildren | hookserver.go:299-311 | the nested decode loop fails with the first failing child's error when any child fails to decode; otherwise it returns the decoded children grouped by decoded kind, in wire order |
| HookServer.ServeSync | hookserver.go:276-358 | non-POST gives 405, and then envelope, parent-decode, parent-type and child-decode failures give 400, each with its message and no handler call; otherwise the handler is called once with the parent, the grouped children and the operation; a handler error, status-encode failure or child-encode failure gives 500; success carries the encoded status, children and patches; the call list is empty exactly for 400 and 405 replies |
| HookServer.ServeCustomize | hookserver.go:372-408 | the same 405 and 400 ladder with "CustomizeHook" messages; otherwise the handler is called once with the untouched controller blob and the parent; a handler error gives 500, and a successful response is written unchanged |
| HookServer.ApplyOption | hookserver.go:185-250 | WithLogger changes only the logger and WithDebug only the debug flag; a hook option changes neither and appends one registration of its path, with a handler built from the logger and debug flag current at that moment |
| HookServer.Configure | hookserver.go:170-197 | after the options, the logger is the last WithLogger's (the default logger otherwise) and debug is the last WithDebug's (false otherwise); there is one registration per hook option |
| HookServer.RoutesGrow | hookserver.go:219-250 | registrations are only appended: those made by a prefix of the options are a prefix of the final ones |
| HookServer.RegistrationCaptures | hookserver.go:219-250 | the hook registered by option i sits at its position among the hook options, with its path and a handler holding the scheme's codecs and the logger and debug values in force when option i ran |
| HookServer.HookServer.constructor | hookserver.go:170-182 | NewHookServer keeps the address and scheme, and its state is the defaults with every option applied in order |
| HookServer.HookServer.Apply | hookserver.go:185-250 | one option updates the logger or the debug flag, or appends one registration, as ApplyOption says |
| ChildSets.SelectMembers | hookserver.go:308-309 | an object is in kind g's bucket exactly when it was decoded with kind g |
| ChildSets.LookupGroup | hookserver.go:300-311 | the bucket of kind g in the grouped map is the subsequence of the decoded children of kind g, in decode order |
| ChildSets.GroupSnoc | hookserver.go:308-309 | appending one decoded child appends it to its kind's bucket and leaves the other buckets alone |
| ChildSets.SelectAbsent | hookserver.go:300-311 | a kind with no decoded child has an empty bucket |
| ChildSets.GroupCount | http_handlers.go:93-111 | summed over the distinct kinds present, the bucket sizes equal the number of children grouped: nothing is lost or duplicated |
| ChildSets.DecodeAll | hookserver.go:301-309 | a successful fail-fast decode yields one (kind, object) pair per child blob, in visiting order, each the blob's decoding |
| ChildSets.DecodeAllFailsAtFirstError | hookserver.go:301-307 | the fail-fast decode fails exactly when some child fails to decode, and then with the error of the first such child |
| ChildSets.DecodeAllSticky | hookserver.go:304-306 | once a prefix of the children has failed to decode, later children do not change the result |
| ChildSets.DecodeAllIsAccepted | hookserver.go:299-311 | a successful fail-fast decode yields exactly the children the drop-and-warn filter keeps when every object passes, and drops none |
| ChildSets.Accepted | http_handlers.go:94-110 | the kept children are no more than the blobs visited, and every kept object passed the client.Object assertion |
| ChildSets.Skipped | http_handlers.go:94-110 | the skipped blobs are no more than the blobs visited, and each is a visited blob that failed to decode or is not a client.Object |
| ChildSets.AcceptedPlusSkipped | http_handlers.go:93-111 | every child blob is either kept or skipped |
| ChildSets.SkippedMembers | http_handlers.go:96-108 | a blob is skipped exactly when it fails to decode or is not a client.Object |
| ChildSets.BucketKeepsWireOrder | http_handlers.go:93-111 | a kind's bucket is that kind's kept children from the wire lists before list i, then those of list i in wire order, then those of the later lists |
| ChildSets.EncodeChildren | hookserver.go:332-346 | the encode loop succeeds exactly when every object of every bucket encodes; on success, the keys are exactly KeyForGVK of the bucket kinds, each key's list is the element-wise encoding of a bucket with that key, and a bucket whose key is unique is encoded exactly; on failure, the error is that of some object that fails to encode |
| ChildSets.PlainKeysUnique | hookserver.go:345 | when all kinds are slash-free, no two buckets share a key, so no bucket's list overwrites another's |
| ChildSets.EncodingIsOrderIndependent | hookserver.go:332-346 | with slash-free kinds, every visiting order of the response buckets gives the same wire map |
| ChildSets.EncodingUnique | hookserver.go:337-344 | the encoding of one bucket is determined by the bucket |
| HttpHandlers.ErrorMessage | http_handlers.go:42-56 | the message begins with the category; it is exactly the category when debug logging is off; otherwise the rest is ": " and the error text |
| HttpHandlers.WriteError | http_handlers.go:40-58 | the reply carries the given code; the message always begins with the category; it is exactly the category when debug logging is off; otherwise the rest is ": " and the error text |
| HttpHandlers.ObserveChildren | http_handlers.go:93-111 | the nested decode loop returns the children that decode and are client.Objects, grouped by decoded kind in wire order, together with the blobs it skipped, in wire order |
| HttpHandlers.ServeSync | http_handlers.go:71-156 | envelope, parent-decode and parent-type failures give 400 with their messages and no handler call; child failures never fail the request; the handler is called once with the parent, the observed children and the finalizing flag; a handler error, status-encode failure or child-encode failure gives 500; success carries the encoded status, children and finalized flag; no 405 is ever produced |
| HttpHandlers.ServeCustomize | http_handlers.go:167-199 | envelope, parent and type failures give 400 with no handler call; otherwise the handler is called once with the untouched controller blob; a handler error gives 500, and a successful response is written unchanged |
| Generations.ErrorMessagesAgreeWithoutDebug | http_handlers.go:42-52 | with debug output off, both generations of writeError send the same message |
| Generations.DebugMessageAddsCategory | http_handlers.go:54-56 | with debug output on, the second generation's message is the category, then ": ", then the first generation's debug message |
| Generations.PoliciesAgreeOnGoodChildren | http_handlers.go:93-111 | when every child decodes and is a client.Object, the fail-fast decode yields exactly the children drop-and-warn keeps, and nothing is skipped |
| Generations.PoliciesDifferOnBadChild | http_handlers.go:96-101 | one undecodable child makes the fail-fast decode fail, while drop-and-warn skips that blob, and the kept and skipped children together account for every blob |
| Microservice.TargetNamespace | examples/microservice/main.go:26-29 | the namespace is the parent's when the parent has one and "default" otherwise, so it is never empty |
| Microservice.ServiceTypeFor | examples/microservice/main.go:65-68 | the Service is a LoadBalancer exactly when exposure is "public" |
| Microservice.DesiredDeployment | examples/microservice/main.go:32-62 | the Deployment is named name+"-deploy" and sits in the target namespace; it is labelled and selecting app=name; it has the spec's replicas and one container running the spec's image on the spec's port |
| Microservice.DesiredService | examples/microservice/main.go:71-87 | the Service is named name+"-svc" and is in the Deployment's namespace; it is labelled and selecting app=name; port and targetPort are both the spec's port; its type is LoadBalancer exactly for public exposure |
| Microservice.SelectorsMatchPods | examples/microservice/main.go:32-87 | the Deployment's selector and the Service's selector both match the Deployment's pod template labels |
| Microservice.ChildNamesIdentifyParent | examples/microservice/main.go:34-73 | two parents whose Deployments or Services have the same name have the same name |
| Microservice.Sync | examples/microservice/main.go:89-98 | sync never fails; the status is the parent unchanged; the children are exactly the apps/v1 Deployment bucket [deployment] and the v1 Service bucket [service] |
| Microservice.WireKeys | examples/microservice/main.go:94-96 | the two child kinds have the wire keys "apps/v1/Deployment" and "v1/Service" |
| ChildSets.TwoBucketWire | hookserver.go:332-346 | two single-object buckets of distinct slash-free kinds encode to exactly their two keys, with one blob under each |
| Microservice.SyncWireShape | examples/microservice/main.go:89-98 | every wire encoding of sync's response has exactly the keys "apps/v1/Deployment" and "v1/Service", with one blob under each |

## Left out

- ListenAndServe and Shutdown start and stop a network server. This is I/O and lifecycle.
- ServeMux routing, including its 404 for unknown paths and its panic on a duplicate or malformed path, is not modelled. A registration is a (path, handler) entry in `routes`.
- Logging is not modelled: the Logger interface, defaultLogger, log.Printf and slog output. A logger appears only as an identity. The second generation's warnings are the `skipped` list of blobs.
- The byte-level codecs are leaves: `encoding/json` envelope decoding, the scheme's UniversalDecoder and its JSON serializer. They are uninterpreted functions returning a Result.
- The final `json.NewEncoder(w).Encode` of the response and the Content-Type header are not modelled. A failure there is only logged in both generations, so a success outcome is the value that would be written.
- `http.Error`'s own formatting, such as its trailing newline and headers, is not modelled. An error reply is its code and message.
- context.Context and cancellation, which are passed into the handlers, are left out. So is the `*runtime.Scheme` argument handed to the handlers: both are omitted from the handler's parameters.
- Go's encoding of a nil bucket list as JSON null, and `omitempty`, are left out. An empty bucket encodes to an empty list.
- The second generation's `debug` fields on syncHandler and customizeHTTPHandler are never read by its code, so they are not modelled.
- The second generation's registration API, which builds syncHandler and customizeHTTPHandler, is not part of this model. Its handlers are built directly.
- composition/sync.go is not part of this model. Microservice.Sync therefore takes only the parent, the one request field the example reads.
- In the example, the Deployment's replicas field points into the parent's spec. The model copies the value and does not capture that aliasing.
- The deep-copy code in examples/microservice/v1alpha1/types.go and the example's main() wiring are left out.
- A Go handler that returns a nil response with a nil error would make Go panic. Handlers here return a Result, so that case cannot arise.
- The request types in composite/sync.go, composition/customize.go, composition/finalize.go, controller/customize/customize.go and controller/composite/sync.go are given only the parts the handlers touch. The finalize types and their adapters have no handler code.
- ChildSets.EncodeChildren: on a child-encode failure it states only that the error belongs to some object that fails to encode, not which one. Go's map iteration order, which decides that, is unspecified.
