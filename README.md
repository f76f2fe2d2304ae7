# Handler-argument binding of a small aiohttp web framework, in Dafny

This project models the part of `www/webframe.py` that decides, from a URL
handler's declared parameters, what arguments the handler is called with, and
the structured errors of `www/apis.py` that a handler may raise.

- **Signature classification** (module `Inspector`). A handler's signature is
  given as a sequence of `Param(name, kind, hasDefault)` in declaration order.
  The five classifiers (`get_required_kw_args`, `get_named_kw_args`,
  `has_named_kw_args`, `has_var_kw_arg`, `has_request_arg`) are each specified
  by a function. Each also has a method that runs the source's loop, proved
  equal to that function. `Classify` is what `RequestHandler.__init__` caches.
  It fails when a parameter named `request` is followed by an ordinary
  positional parameter.
- **The request binder** (modules `Binder` and `Handler`). The request arrives
  already parsed: method, content type, JSON body, form fields, raw query
  string, the query as key to non-empty value list, and the path parameters
  (`match_info`). `Binder.Bind` states the binder's decision for one request
  as a function:
  - the argument source: JSON body, form, query string, or path only;
  - the three POST rejections;
  - filtering to the declared keyword-only names;
  - the path-wins merge;
  - injection of `request`;
  - the first-missing-required-name check.

  `Binder.Respond` states how an `APIError` becomes the
  `{error, data, message}` payload. `Handler.RequestHandler` is the class. Its
  classification fields are set once. Its `Call` method builds the keyword map
  step by step, as `__call__` does, and is proved to agree with
  `Respond(Bind(...))`.
- **Route tagging and registration** (module `Routes`). The `get`/`post`
  decorators attach a method and a path. `add_route` checks both tags and
  builds the `RequestHandler`. `add_routes` scans a module's members: those
  that are public, callable and carry both tags. The router is reduced to the
  list of registrations it receives. `post` as written tags a
  `functools.partial` instead of the function; `Routes.PostAsWritten` models
  that and `Routes.Post` the evidently intended decorator.
- **API errors** (module `Apis`). `APIError` and its three subclasses become
  one datatype with a `kind` per class and the three attributes
  `error`, `data` and `message`.
- **Scenarios** (module `Scenarios`). Concrete handler shapes from the usage
  notes in `www/webframe.py` are stated as lemmas about the specification, for
  example `api_comments(*, page='1')` and `get_blog(id)`.

The handler body is not code the model can see. A handler is a function from
the keyword map to `Returns(v)`, `RaisesApiError(e)` or `RaisesOther(x)`.

The required-argument check at `www/webframe.py:172-176` runs on every path
through `__call__` that reaches argument assembly (the 400 answers at lines
136, 141 and 147 return before it), including the path-only fallback (a GET with an empty query
string), where it is applied to the path parameters;
`Scenarios.RequiredCheckedOnPathFallback` states this.

## Model

| member | source | states |
|---|---|---|
| `Inspector.GetRequiredKwArgs` | www/webframe.py:41-50 | the loop returns exactly `RequiredKwArgs(ps)`: the keyword-only names without a default, in declaration order |
| `Inspector.GetNamedKwArgs` | www/webframe.py:52-61 | the loop returns exactly `NamedKwArgs(ps)`: all keyword-only names, in declaration order |
| `Inspector.HasNamedKwArgsLoop` | www/webframe.py:63-71 | the early-return loop answers true iff some parameter is keyword-only |
| `Inspector.HasVarKwArgLoop` | www/webframe.py:73-80 | the loop answers true iff some parameter is `**kw`; the source's `None` is false |
| `Inspector.HasRequestArgLoop` | www/webframe.py:82-96 | the loop raises `RequestNotLast` iff some `request` parameter is followed by a parameter other than `*args`, keyword-only or `**kw`; otherwise it answers whether `request` exists |
| `Inspector.NamedKwArgsMembership` | www/webframe.py:52-61 | a name is in the named list iff some keyword-only parameter has that name |
| `Inspector.RequiredKwArgsMembership` | www/webframe.py:41-50 | a name is in the required list iff some keyword-only parameter without a default has that name |
| `Inspector.NamedKwArgsAppend` | www/webframe.py:56-61 | the named list follows declaration order: the list for `ps + qs` is that of `ps` followed by that of `qs` |
| `Inspector.RequiredKwArgsAppend` | www/webframe.py:45-50 | the required list follows declaration order in the same way |
| `Inspector.RequiredIsSubsequenceOfNamed` | www/webframe.py:41-61 | the required list is the named list with some entries deleted, in the same order |
| `Inspector.HasNamedKwArgsIffNonEmpty` | www/webframe.py:63-71 | `has_named_kw_args` is true iff `get_named_kw_args` is non-empty |
| `Inspector.NoRequestNeverRaises` | www/webframe.py:88-96 | a signature without a `request` parameter never raises and answers false |
| `Inspector.ClassifyWellFormed` | www/webframe.py:106-112 | every cached classification has `hasNamedKwArgs` equal to "named list non-empty" and the required list a subsequence of the named list |
| `Handler.NewRequestHandler` | www/webframe.py:102-112 | construction raises iff `has_request_arg` raises; otherwise the new handler's cached fields are the classification of the signature and it wraps the given function |
| `Handler.RequestHandler.constructor` | www/webframe.py:103-112 | the fields hold the function and the five classifier answers |
| `Handler.RequestHandler.CollectArgs` | www/webframe.py:130-153 | the argument source is the one `ArgumentSource` specifies: a 400 message, path only, or the map read from the JSON body, the form or the query |
| `Handler.RequestHandler.BindArgs` | www/webframe.py:154-176 | the decision equals `Bind`: the filtered and path-merged map with `request` bound, or a 400 naming the first missing required name |
| `Handler.RequestHandler.Call` | www/webframe.py:129-182 | the response equals `Respond(Bind(classification, req), run)` |
| `Handler.CollectQuery` | www/webframe.py:151-153 | the loop binds every query key to the first of its values and nothing else |
| `Handler.KeepNamedLoop` | www/webframe.py:158-164 | the copy holds exactly the entries whose key is a declared keyword-only name, with their values |
| `Handler.MergePath` | www/webframe.py:166-169 | the result is the collected map overwritten by every path parameter |
| `Handler.CheckRequired` | www/webframe.py:173-176 | the loop reports the first required name absent from the map, or none |
| `Binder.JsonArgs` | www/webframe.py:138-142 | a JSON object body yields one argument per member, with the member's value; `Binder.PostRejections` and `Handler.RequestHandler.CollectArgs` use it |
| `Binder.TextArgs` | www/webframe.py:143-145 | a form body, or the path parameters, yields one string argument per field; `Handler.MergePath` is proved against it |
| `Binder.FirstValues` | www/webframe.py:150-153 | the query map has the query's keys, each bound to its first value; the loop `Handler.CollectQuery` is proved equal to it |
| `Binder.KeepNamed` | www/webframe.py:158-164 | a key survives filtering iff it was collected and is a declared keyword-only name; values are unchanged; the loop `Handler.KeepNamedLoop` is proved equal to it and `Binder.AssembledArguments` builds on it |
| `Binder.FirstMissingIsFirst` | www/webframe.py:173-176 | the reported name is missing and every required name before it is present |
| `Binder.FirstMissingNone` | www/webframe.py:173-176 | nothing is reported iff every required name is bound |
| `Binder.PathOnlyWithoutKeywordParams` | www/webframe.py:133-171 | without `**kw` and keyword-only parameters the handler gets exactly the path parameters, plus `request` if declared |
| `Binder.BodyAndQueryIgnoredWithoutKeywordParams` | www/webframe.py:133 | for such a handler, two requests with the same path parameters bind identically, whatever their bodies and query strings |
| `Binder.PostRejections` | www/webframe.py:134-147 | a POST needing keyword arguments gets "Missing Content-Type." for an empty content type, "JSON body must be object." for a non-object JSON body, "Unsupported Content-Type: <type>" for any other type |
| `Binder.PostRejectedOnlyForContent` | www/webframe.py:134-147 | those three are the only answers given before the arguments are assembled |
| `Binder.GetReadsQueryOnly` | www/webframe.py:148-155 | a GET needing keyword arguments collects the first value of each query key; an empty query string falls back to the path parameters |
| `Binder.GetIgnoresBody` | www/webframe.py:148-153 | a GET binds the same whatever its content type, JSON body and form |
| `Binder.AssembledArguments` | www/webframe.py:157-171 | with filtering, a key is bound iff it is collected and declared, or a path parameter, or `request`; the path wins over collected values and `request` wins over both |
| `Binder.UnfilteredArguments` | www/webframe.py:157-171 | with `**kw`, a key is bound iff it is collected, a path parameter or `request`; the path wins over collected values, a collected key not overridden keeps its value, and `request` is bound to the request object |
| `Binder.RequiredArgumentsChecked` | www/webframe.py:172-179 | the handler is invoked iff every required name is bound, and then with exactly the assembled map; otherwise the 400 names the first missing required name |
| `Binder.BadRequestSkipsHandler` | www/webframe.py:135-147 | a 400 answer does not depend on the handler: it is never called |
| `Binder.ApiErrorsCaught` | www/webframe.py:178-182 | an APIError becomes its `Payload`, the map `{error, data, message}` of its attributes; any other exception propagates; a returned value is returned |
| `Binder.ApiErrorsEscapeAsWritten` | www/webframe.py:178-182 | with the APIError constructor as written (www/apis.py:15), a handler raising any APIError propagates NameError: the `except APIError` clause never yields a payload |
| `Apis.NewApiError` | www/apis.py:14-18 | the base error stores the given code, data and message; data and message default to ""; `Apis.Payload` and `Binder.ApiErrorsCaught` read these attributes back |
| `Apis.NewValueError` | www/apis.py:20-25 | error is "value:invalid", data is the field, the message is the given one (default "") |
| `Apis.NewResourceNotFoundError` | www/apis.py:27-32 | error is "value:notfound", data is the field, the message is the given one (default "") |
| `Apis.NewPermissionError` | www/apis.py:34-39 | error is "permission:forbidden", data is always "permission", the message is the given one (default "") |
| `Apis.Payload` | www/webframe.py:182 | the payload has exactly the keys error, data and message, holding the error's attributes; `Apis.PayloadIdentifiesSubclass` recovers the subclass from it |
| `Apis.KindOfCode` | www/apis.py:20-39 | a wire error code names at most one subclass, the one whose fixed code it is |
| `Apis.PayloadIdentifiesSubclass` | www/apis.py:20-39 | the error code in a subclass error's payload identifies the subclass |
| `Apis.SubclassesCarryTheirCode` | www/apis.py:20-39 | each subclass constructor yields its class's fixed code, and that code decodes back to the same class |
| `Apis.ConstructAsWritten` | www/apis.py:14-15 | as written, constructing any APIError raises NameError for `APIException` |
| `Apis.ValueErrorConstructionFails` | www/apis.py:15 | APIValueError("email", "invalid format") yields no error object as written, unlike the intended constructor |
| `Routes.Get` | www/webframe.py:15-26 | `@get(path)` attaches method GET and the path and leaves name, callability, signature and the called function alone |
| `Routes.Post` | www/webframe.py:28-39 | `@post(path)` as evidently intended: attaches method POST and the path and leaves name, callability, signature and the called function alone |
| `Routes.PostAsWritten` | www/webframe.py:28-39 | `@post(path)` as written: the tags land on `functools.partial(update_wrapper, ...)`, whose signature replaces the function's and whose call never returns a value |
| `Routes.PartialSignatureClassification` | www/webframe.py:33 | the partial's signature classifies as three optional keyword-only names and no required one |
| `Routes.PostAsWrittenNeverAnswers` | www/webframe.py:28-39 | a function tagged by `@post` as written registers whatever its own signature, and no request to it is answered with a return value |
| `Routes.Router.constructor` | www/webframe.py:206 | a new router holds no routes |
| `Routes.AddRoute` | www/webframe.py:194-206 | an untagged function or a bad signature raises and registers nothing; otherwise exactly one route (method, path, handler name, classification, function) is appended to the unchanged earlier routes, under a new RequestHandler wrapping the member's function |
| `Routes.AddRoutes` | www/webframe.py:208-230 | the routes appended to the unchanged earlier ones are those of `Scan`: scanned members in order, each with its own function under a new RequestHandler, stopping at the first raise |
| `Routes.ScanStopsAtError` | www/webframe.py:229-230 | after a raise, the remaining members add nothing |
| `Routes.ScanNeverUntagged` | www/webframe.py:226-230 | the scan never triggers `add_route`'s untagged error, only a signature error |
| `Routes.ScanRegistersEveryScanned` | www/webframe.py:222-230 | unless the scan raised, every public, callable, tagged member with an accepted signature is registered |
| `Routes.ScannedRoutesComeFromMembers` | www/webframe.py:222-230 | every registered route comes from a public, callable, tagged member with an accepted signature |
| `Routes.GetThenRegister` | www/webframe.py:194-206 | tagging with `@get(path)` and registering yields exactly the route (GET, path, handler name, classification, function) |
| `Routes.EmptyPathOnlyDirectly` | www/webframe.py:198-201 | an empty path passes `add_route`'s `is None` check, but `add_routes` skips it as falsy |
| `Scenarios.CommentsPage` | www/webframe.py:121-123 | `api_comments(*, page='1')` on `?page=3` is called with page = "3" |
| `Scenarios.BlogById` | www/webframe.py:124-127 | `get_blog(id)` on `/blog/42` is called with id = "42" from the path alone, with no query string |
| `Scenarios.SaveWithoutName` | www/webframe.py:173-176 | a handler with required `name` and JSON body `{}` gets "Missing argument: name" |
| `Scenarios.SaveWithoutNamePosted` | www/webframe.py:28-39 | `save(*, name)` tagged `@post('/save')` as evidently intended and posted `{}` is answered "Missing argument: name" |
| `Scenarios.SaveWithoutNamePostedAsWritten` | www/webframe.py:33 | the same function tagged by `@post` as written is invoked with the empty map and the request propagates TypeError |
| `Scenarios.NumericAssignedPostedAsWritten` | www/webframe.py:28-39 | a route tagged `@post('/x/{wrapper}')` as written, posted JSON `{"assigned": 5}`, passes `assigned` through the filter and propagates TypeError from update_wrapper's loop |
| `Scenarios.ValueErrorPayload` | www/webframe.py:181-182 | APIValueError("email", "invalid format") becomes {"error": "value:invalid", "data": "email", "message": "invalid format"} |
| `Scenarios.RequestBeforePositional` | www/webframe.py:94-95 | `handler(request, page)` is refused at registration |
| `Scenarios.RequestBeforeKeywordOnly` | www/webframe.py:90-94 | `handler(request, *, page)` is accepted and declares `request` |
| `Scenarios.RequiredCheckedOnPathFallback` | www/webframe.py:154-176 | on the path-only fallback the required-name check still runs, on the path parameters |

## Left out

- Parameter reflection (`inspect.signature`). A signature is given as a `Param` sequence.
- Request parsing. `request.json()`, `request.post()` and `parse_qs` are not modelled. Their results are inputs. A malformed JSON body makes the parser raise; that is not this code's behaviour.
- JSON numbers are kept as their literal text. Floating point is not modelled.
- Multipart file fields are taken as strings.
- `Binder.Lower` lowercases ASCII letters only. Python's `str.lower` also folds non-ASCII letters. This matters only for content types outside ASCII.
- What aiohttp reports as `content_type` when the header is absent is the framework's business. The model takes the reported string.
- The `web.HTTPBadRequest` object. A 400 answer carries only its message.
- All logging calls, including the duplicate-key warning at `www/webframe.py:168`.
- Asynchrony. This covers the `await`s, `asyncio.coroutine` wrapping (`www/webframe.py:203-204`) and the logging of the handler's signature at line 205.
- `add_static` (`www/webframe.py:185-191`): static file serving.
- Module import and reflection in `add_routes` (`www/webframe.py:215-225`). The module's members are given as a sequence in the order `dir()` lists them. Callability and the two tags are fields of each member.
- The router's storage and URL matching. The router is the list of registrations it received.
- The `_app` field of `RequestHandler`. `__call__` never reads it.
- Error texts. The `ValueError` text of `has_request_arg` (function name and signature) and of `add_route` (`str(fn)`) is not built. The errors carry the handler's name at most.
- The decorators' wrapper functions. `get`'s wrapper calls through unchanged, so `Routes.Get` is modelled as tagging only.
- Routes.Post: states `@post` as evidently intended (tagging only, with the function's own signature and return value). The code as written is `Routes.PostAsWritten`, listed under Findings.
- Routes.UpdateWrapperCall: its contract pins the exception only where Python's outcome does not depend on the attributes of `wrapped`. A binding failure gives TypeError. A request-bound `assigned` or `updated` that is not iterable, or whose first element is not a string, gives TypeError. The default `assigned` gives AttributeError, because `wrapper` is a string or JSON value and takes no attributes. When the request supplies an `assigned` whose first element is a string, the outcome depends on which of those names `wrapped` has. The model does not represent that: it answers AttributeError, and the contract promises only that some exception is raised. The same holds for a request-supplied `updated` whose first element is a string, whose outcome depends on the attributes of `wrapper`. The exception texts are not modelled.
- Binder.TextArgs: a form field given several times is a single string here. The source's `dict(**params)` (`www/webframe.py:145`) over a multi-valued form keeps one value on older Pythons and raises TypeError on 3.9 and later. `form: map<string, string>` cannot express a repeated field.
- Dictionary order of the keyword map. `self._func(**kw)` (`www/webframe.py:179`) passes the arguments in insertion order: collected keys first, then new path keys, then `request`. The model passes an unordered map, so a `**kw` handler whose behaviour depends on argument order cannot be expressed.
- Exceptions other than `APIError` raised by the handler. They appear only as `Propagated`; what the host server does with them is outside the model.
- Python object identity and aliasing. For example, the JSON body dict is mutated in place by the path merge. The model builds new maps.

## Findings

| source | as written | input that shows it | evidently intended | confidence | as-written member | corrected member |
|---|---|---|---|---|---|---|
| www/apis.py:15 | `APIError.__init__` calls `super(APIException, self)`, a name defined nowhere, so every APIError and subclass construction raises NameError. The `except APIError` clause at www/webframe.py:181 can then never fire: a handler that raises an APIError raises NameError instead. | `APIValueError("email", "invalid format")` | `super(APIError, self).__init__(message)` followed by storing `error`, `data` and `message` | high; not executed | `Apis.ConstructAsWritten` (exhibited by `Apis.ValueErrorConstructionFails` and `Binder.ApiErrorsEscapeAsWritten`) | `Apis.NewApiError` |
| www/webframe.py:33-35 | `post` decorates its wrapper with `@functools.wraps` and no argument, so `wrapper` becomes `functools.partial(update_wrapper, wrapped=wrapper, ...)`: the route's signature is the partial's and a call runs `update_wrapper` rather than the handler. The wrapper also drops the handler's return value. | `save(*, name)` tagged `@post('/save')`, posted JSON `{}`: invoked with no arguments, raises TypeError instead of answering "Missing argument: name" | `@functools.wraps(func)` and `return func(*args, **kw)`, as in `get` | high; not executed | `Routes.PostAsWritten` (exhibited by `Scenarios.SaveWithoutNamePostedAsWritten` and `Routes.PostAsWrittenNeverAnswers`) | `Routes.Post` (with `Scenarios.SaveWithoutNamePosted`) |
