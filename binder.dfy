/**
 * What RequestHandler.__call__ in www/webframe.py decides for one request,
 * written as functions: where the keyword arguments come from, how they are
 * filtered and merged with the path parameters, which bad-request answer is
 * given, and how an APIError raised by the handler becomes a payload.
 * The request arrives already parsed: the JSON body, the form fields and the
 * query parameters are inputs, not bytes.
 */
module Binder {

  import opened Wrappers
  import opened Inspector
  import opened Apis

  /** A JSON value as the body parser returns it (numbers kept as their literal text). */
  datatype Json =
    | JNull
    | JBool(b: bool)
    | JNumber(literal: string)
    | JString(s: string)
    | JArray(items: seq<Json>)
    | JObject(fields: map<string, Json>)

  /** A keyword argument value: data from the request, or the request object itself. */
  datatype Value = Data(json: Json) | RequestObject

  type KwArgs = map<string, Value>

  /** The value list parse_qs gives for a key: never empty. */
  type QueryValues = vs: seq<string> | |vs| > 0 witness [""]

  /** The parts of an aiohttp request the binder reads. */
  datatype Request = Request(
    httpMethod: string,
    contentType: string,
    body: Json,
    form: map<string, string>,
    queryString: string,
    query: map<string, QueryValues>,
    matchInfo: map<string, string>)

  /** What the binder decides before calling the handler. */
  datatype Binding = BadRequest(message: string) | Invoke(kw: KwArgs)

  /** What calling the handler with a keyword map does. */
  datatype HandlerResult<R> = Returns(value: R) | RaisesApiError(error: ApiError) | RaisesOther(exception: string)

  /** What __call__ answers. */
  datatype Response<R> =
    | BadRequestResponse(message: string)
    | Returned(value: R)
    | ErrorPayload(payload: map<string, string>)
    | Propagated(exception: string)

  const MISSING_CONTENT_TYPE := "Missing Content-Type."
  const JSON_NOT_OBJECT := "JSON body must be object."
  const UNSUPPORTED_CONTENT_TYPE := "Unsupported Content-Type: "
  const MISSING_ARGUMENT := "Missing argument: "
  const JSON_TYPE := "application/json"
  const FORM_TYPE := "application/x-www-form-urlencoded"
  const MULTIPART_TYPE := "multipart/form-data"

  // ---------------------------------------------------------------------
  // Text helpers standing in for str.lower and str.startswith

  function LowerChar(c: char): char {
    if 'A' <= c <= 'Z' then (c as int + 32) as char else c
  }

  function Lower(s: string): (r: string)
    ensures |r| == |s|
    ensures forall i :: 0 <= i < |s| ==> r[i] == LowerChar(s[i])
  {
    seq(|s|, i requires 0 <= i < |s| => LowerChar(s[i]))
  }

  predicate StartsWith(s: string, prefix: string) {
    |prefix| <= |s| && s[..|prefix|] == prefix
  }

  function Text(s: string): Value {
    Data(JString(s))
  }

  // ---------------------------------------------------------------------
  // Where the keyword arguments come from

  /** Whether the handler takes keyword arguments at all (line 133). */
  predicate NeedsKwArgs(c: Classification) {
    c.hasVarKwArg || c.hasNamedKwArgs || |c.requiredKwArgs| > 0
  }

  /** Rejected: a 400 answer; PathOnly: `kw` stays None; Collected: `kw` was read from the request. */
  datatype Source = Rejected(message: string) | PathOnly | Collected(kw: KwArgs)

  function JsonArgs(fields: map<string, Json>): (kw: KwArgs)
    ensures kw.Keys == fields.Keys
    ensures forall k :: k in fields ==> kw[k] == Data(fields[k])
  {
    map k | k in fields :: Data(fields[k])
  }

  function TextArgs(m: map<string, string>): (kw: KwArgs)
    ensures kw.Keys == m.Keys
    ensures forall k :: k in m ==> kw[k] == Text(m[k])
  {
    map k | k in m :: Text(m[k])
  }

  /** Each query key bound to the first of its values. */
  function FirstValues(query: map<string, QueryValues>): (kw: KwArgs)
    ensures kw.Keys == query.Keys
    ensures forall k :: k in query ==> kw[k] == Text(query[k][0])
  {
    map k | k in query :: Text(query[k][0])
  }

  /** The POST branch, lines 135-147. */
  function BodySource(req: Request): Source
  {
    if req.contentType == "" then Rejected(MISSING_CONTENT_TYPE)
    else
      var ct := Lower(req.contentType);
      if StartsWith(ct, JSON_TYPE) then
        if req.body.JObject? then Collected(JsonArgs(req.body.fields)) else Rejected(JSON_NOT_OBJECT)
      else if StartsWith(ct, FORM_TYPE) || StartsWith(ct, MULTIPART_TYPE) then
        Collected(TextArgs(req.form))
      else
        Rejected(UNSUPPORTED_CONTENT_TYPE + req.contentType)
  }

  /** The GET branch, lines 149-153: an empty query string leaves `kw` unset. */
  function QuerySource(req: Request): Source
  {
    if req.queryString != "" then Collected(FirstValues(req.query)) else PathOnly
  }

  function ArgumentSource(c: Classification, req: Request): Source
  {
    if !NeedsKwArgs(c) then PathOnly
    else if req.httpMethod == "POST" then BodySource(req)
    else if req.httpMethod == "GET" then QuerySource(req)
    else PathOnly
  }

  // ---------------------------------------------------------------------
  // Assembling the final keyword map

  /** The entries of `kw` whose key is a declared keyword-only name. */
  function KeepNamed(kw: KwArgs, named: seq<string>): (r: KwArgs)
    ensures forall k :: k in r <==> k in kw && k in named
    ensures forall k :: k in r ==> r[k] == kw[k]
  {
    map k | k in kw && k in named :: kw[k]
  }

  /** Whether the collected map is cut down to the named parameters (line 158). */
  predicate FiltersToNamed(c: Classification) {
    !c.hasVarKwArg && |c.namedKwArgs| > 0
  }

  /** The map before `request` is injected (lines 154-169). */
  function ArgsFrom(c: Classification, req: Request, src: Source): KwArgs
    requires !src.Rejected?
  {
    match src
    case PathOnly => TextArgs(req.matchInfo)
    case Collected(kw) =>
      (if FiltersToNamed(c) then KeepNamed(kw, c.namedKwArgs) else kw) + TextArgs(req.matchInfo)
  }

  /** Lines 170-171: the request object is bound last, under `request`. */
  function WithRequest(c: Classification, kw: KwArgs): KwArgs {
    if c.hasRequestArg then kw[REQUEST := RequestObject] else kw
  }

  /** The first required name, in declaration order, that `kw` lacks. */
  function FirstMissing(required: seq<string>, kw: KwArgs): Option<string>
  {
    if required == [] then None
    else if required[0] !in kw then Some(required[0])
    else FirstMissing(required[1..], kw)
  }

  /** The binder's decision for one request, before the handler runs. */
  function Bind(c: Classification, req: Request): Binding
  {
    var src := ArgumentSource(c, req);
    if src.Rejected? then BadRequest(src.message)
    else
      var kw := WithRequest(c, ArgsFrom(c, req, src));
      match FirstMissing(c.requiredKwArgs, kw)
      case Some(name) => BadRequest(MISSING_ARGUMENT + name)
      case None => Invoke(kw)
  }

  /** Lines 178-182: call the handler and translate an APIError into its payload. */
  function Respond<R>(b: Binding, run: KwArgs -> HandlerResult<R>): Response<R>
  {
    match b
    case BadRequest(m) => BadRequestResponse(m)
    case Invoke(kw) =>
      match run(kw)
      case Returns(v) => Returned(v)
      case RaisesApiError(e) => ErrorPayload(Payload(e))
      case RaisesOther(x) => Propagated(x)
  }

  // ---------------------------------------------------------------------
  // Properties

  /** `required[i]` is absent from `kw` and every earlier required name is present. */
  predicate FirstAbsentAt(required: seq<string>, kw: KwArgs, i: int) {
    && 0 <= i < |required|
    && required[i] !in kw
    && forall j :: 0 <= j < i ==> required[j] in kw
  }

  /** The missing-argument check reports the first absent required name in declaration order. */
  lemma {:induction false} FirstMissingIsFirst(required: seq<string>, kw: KwArgs, name: string)
    ensures FirstMissing(required, kw) == Some(name) <==>
      exists i :: FirstAbsentAt(required, kw, i) && required[i] == name
  {
    if required != [] {
      var tail := required[1..];
      FirstMissingIsFirst(tail, kw, name);
      if FirstMissing(required, kw) == Some(name) && required[0] in kw {
        var i :| FirstAbsentAt(tail, kw, i) && tail[i] == name;
        assert FirstAbsentAt(required, kw, i + 1) by {
          forall j | 0 <= j < i + 1 ensures required[j] in kw {
            if j > 0 { assert required[j] == tail[j - 1]; }
          }
        }
      }
      if exists i :: FirstAbsentAt(required, kw, i) && required[i] == name {
        var i :| FirstAbsentAt(required, kw, i) && required[i] == name;
        if i > 0 {
          assert FirstAbsentAt(tail, kw, i - 1) by {
            forall j | 0 <= j < i - 1 ensures tail[j] in kw {
              assert tail[j] == required[j + 1];
            }
          }
        }
      }
    }
  }

  /** No name is reported missing exactly when every required name is bound. */
  lemma {:induction false} FirstMissingNone(required: seq<string>, kw: KwArgs)
    ensures FirstMissing(required, kw).None? <==> forall n :: n in required ==> n in kw
  {
    if required != [] {
      FirstMissingNone(required[1..], kw);
      assert forall n :: n in required ==> n == required[0] || n in required[1..];
    }
  }

  /**
   * A handler with neither **kw nor keyword-only parameters is called with the
   * path parameters (and the request, if declared) whatever the body and the
   * query string hold.
   */
  lemma PathOnlyWithoutKeywordParams(c: Classification, req: Request)
    requires WellFormed(c)
    requires !c.hasVarKwArg && c.namedKwArgs == []
    ensures Bind(c, req) == Invoke(WithRequest(c, TextArgs(req.matchInfo)))
  {
    assert c.requiredKwArgs == [];
  }

  /** Such a handler's binding depends on the path parameters alone. */
  lemma BodyAndQueryIgnoredWithoutKeywordParams(c: Classification, r1: Request, r2: Request)
    requires WellFormed(c)
    requires !c.hasVarKwArg && c.namedKwArgs == []
    requires r1.matchInfo == r2.matchInfo
    ensures Bind(c, r1) == Bind(c, r2)
  {
    PathOnlyWithoutKeywordParams(c, r1);
    PathOnlyWithoutKeywordParams(c, r2);
  }

  /** The three POST answers given before any argument is assembled. */
  lemma PostRejections(c: Classification, req: Request)
    requires NeedsKwArgs(c) && req.httpMethod == "POST"
    ensures req.contentType == "" ==> Bind(c, req) == BadRequest(MISSING_CONTENT_TYPE)
    ensures req.contentType != "" && StartsWith(Lower(req.contentType), JSON_TYPE) && !req.body.JObject?
      ==> Bind(c, req) == BadRequest(JSON_NOT_OBJECT)
    ensures req.contentType != ""
      && !StartsWith(Lower(req.contentType), JSON_TYPE)
      && !StartsWith(Lower(req.contentType), FORM_TYPE)
      && !StartsWith(Lower(req.contentType), MULTIPART_TYPE)
      ==> Bind(c, req) == BadRequest(UNSUPPORTED_CONTENT_TYPE + req.contentType)
  {
  }

  /** A POST is rejected before the handler runs only for these three reasons. */
  lemma PostRejectedOnlyForContent(c: Classification, req: Request)
    requires NeedsKwArgs(c) && req.httpMethod == "POST"
    requires ArgumentSource(c, req).Rejected?
    ensures ArgumentSource(c, req).message in {MISSING_CONTENT_TYPE, JSON_NOT_OBJECT, UNSUPPORTED_CONTENT_TYPE + req.contentType}
  {
  }

  /** A GET collects the first value of every query key, or falls back to the path on an empty query string. */
  lemma GetReadsQueryOnly(c: Classification, req: Request)
    requires NeedsKwArgs(c) && req.httpMethod == "GET"
    ensures req.queryString != "" ==> ArgumentSource(c, req) == Collected(FirstValues(req.query))
    ensures req.queryString == "" ==> ArgumentSource(c, req) == PathOnly
  {
  }

  /** A GET never looks at the body, the form or the content type. */
  lemma GetIgnoresBody(c: Classification, r1: Request, r2: Request)
    requires r1.httpMethod == "GET"
    requires r2 == r1.(contentType := r2.contentType, body := r2.body, form := r2.form)
    ensures Bind(c, r1) == Bind(c, r2)
  {
  }

  /**
   * The assembled map for collected arguments, when filtering applies: only
   * declared keyword-only names survive from the body or query, every path
   * parameter is written in and wins on a collision, and `request` is bound last.
   */
  lemma AssembledArguments(c: Classification, req: Request, kw: KwArgs, k: string)
    requires ArgumentSource(c, req) == Collected(kw)
    requires FiltersToNamed(c)
    ensures var args := WithRequest(c, ArgsFrom(c, req, Collected(kw)));
      && (k in args <==> (k in kw && k in c.namedKwArgs) || k in req.matchInfo || (c.hasRequestArg && k == REQUEST))
      && (c.hasRequestArg && k == REQUEST ==> args[k] == RequestObject)
      && (k in req.matchInfo && !(c.hasRequestArg && k == REQUEST) ==> args[k] == Text(req.matchInfo[k]))
      && (k in kw && k in c.namedKwArgs && k !in req.matchInfo && !(c.hasRequestArg && k == REQUEST) ==> args[k] == kw[k])
  {
  }

  /** Without filtering (the handler has **kw), every collected key survives; the path still wins. */
  lemma UnfilteredArguments(c: Classification, req: Request, kw: KwArgs, k: string)
    requires ArgumentSource(c, req) == Collected(kw)
    requires !FiltersToNamed(c)
    ensures var args := WithRequest(c, ArgsFrom(c, req, Collected(kw)));
      && (k in args <==> k in kw || k in req.matchInfo || (c.hasRequestArg && k == REQUEST))
      && (k in req.matchInfo && !(c.hasRequestArg && k == REQUEST) ==> args[k] == Text(req.matchInfo[k]))
      && (k in kw && k !in req.matchInfo && !(c.hasRequestArg && k == REQUEST) ==> args[k] == kw[k])
      && (c.hasRequestArg && k == REQUEST ==> args[k] == RequestObject)
  {
  }

  /**
   * The handler is invoked only with every required name bound, and then with
   * exactly the assembled map; otherwise the answer names the first missing
   * required name in declaration order.
   */
  lemma RequiredArgumentsChecked(c: Classification, req: Request)
    requires !ArgumentSource(c, req).Rejected?
    ensures var kw := WithRequest(c, ArgsFrom(c, req, ArgumentSource(c, req)));
      && (Bind(c, req).Invoke? <==> forall n :: n in c.requiredKwArgs ==> n in kw)
      && (Bind(c, req).Invoke? ==> Bind(c, req).kw == kw)
      && (Bind(c, req).BadRequest? ==>
            exists i :: FirstAbsentAt(c.requiredKwArgs, kw, i)
              && Bind(c, req).message == MISSING_ARGUMENT + c.requiredKwArgs[i])
  {
    var kw := WithRequest(c, ArgsFrom(c, req, ArgumentSource(c, req)));
    FirstMissingNone(c.requiredKwArgs, kw);
    var m := FirstMissing(c.requiredKwArgs, kw);
    if m.Some? {
      FirstMissingIsFirst(c.requiredKwArgs, kw, m.value);
    }
  }

  /** A bad request never runs the handler: the answer is the same whatever the handler does. */
  lemma BadRequestSkipsHandler<R>(m: string, run1: KwArgs -> HandlerResult<R>, run2: KwArgs -> HandlerResult<R>)
    ensures Respond(BadRequest(m), run1) == Respond(BadRequest(m), run2) == BadRequestResponse(m)
  {
  }

  /** Every APIError class raised by the handler is caught and turned into its payload; nothing else is. */
  lemma ApiErrorsCaught<R>(kw: KwArgs, run: KwArgs -> HandlerResult<R>)
    ensures run(kw).RaisesApiError? ==>
      Respond(Invoke(kw), run) == ErrorPayload(Payload(run(kw).error))
    ensures run(kw).RaisesOther? ==> Respond(Invoke(kw), run) == Propagated(run(kw).exception)
    ensures run(kw).Returns? ==> Respond(Invoke(kw), run) == Returned(run(kw).value)
  {
  }

  /** A handler's `raise` of a constructor call: the instance, or what its construction raised. */
  function Raise<R>(c: Construction): (r: HandlerResult<R>)
    ensures c.Constructed? ==> r == RaisesApiError(c.e)
    ensures c.RaisedNameError? ==> r == RaisesOther("NameError")
  {
    match c
    case Constructed(e) => RaisesApiError(e)
    case RaisedNameError(_) => RaisesOther("NameError")
  }

  /**
   * With the constructor as written, a handler that raises any APIError
   * propagates NameError instead: the except clause never produces a payload.
   */
  lemma ApiErrorsEscapeAsWritten<R>(kw: KwArgs, run: KwArgs -> HandlerResult<R>,
                                    kind: ErrorKind, error: string, data: string, message: string)
    requires run(kw) == Raise(ConstructAsWritten(kind, error, data, message))
    ensures Respond(Invoke(kw), run) == Propagated("NameError")
  {
  }
}
