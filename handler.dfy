/**
 * The RequestHandler class of www/webframe.py: it caches the classification
 * of one handler function in fields set once at construction, and __call__
 * builds the keyword-argument map for a request step by step before calling
 * the handler. The handler function itself is a field: given a keyword map,
 * it returns a value or raises.
 */
module Handler {

  import opened Wrappers
  import opened Inspector
  import opened Apis
  import opened Binder

  class RequestHandler<R> {
    const run: KwArgs -> HandlerResult<R>
    const hasRequestArg: bool
    const hasVarKwArg: bool
    const hasNamedKwArgs: bool
    const namedKwArgs: seq<string>
    const requiredKwArgs: seq<string>

    /** The cached classification as one value. */
    function Classification(): Classification {
      Inspector.Classification(hasRequestArg, hasVarKwArg, hasNamedKwArgs, namedKwArgs, requiredKwArgs)
    }

    /** The field assignments of __init__, given the classifiers' answers. */
    constructor (run: KwArgs -> HandlerResult<R>, hasRequestArg: bool, hasVarKwArg: bool,
                 hasNamedKwArgs: bool, namedKwArgs: seq<string>, requiredKwArgs: seq<string>)
      ensures this.run == run
      ensures Classification() == Inspector.Classification(hasRequestArg, hasVarKwArg, hasNamedKwArgs, namedKwArgs, requiredKwArgs)
    {
      this.run := run;
      this.hasRequestArg := hasRequestArg;
      this.hasVarKwArg := hasVarKwArg;
      this.hasNamedKwArgs := hasNamedKwArgs;
      this.namedKwArgs := namedKwArgs;
      this.requiredKwArgs := requiredKwArgs;
    }

    /** Lines 130-153: read the keyword arguments from the body or the query string, if needed. */
    method CollectArgs(req: Request) returns (src: Source)
      ensures src == ArgumentSource(Classification(), req)
    {
      src := PathOnly;
      if hasVarKwArg || hasNamedKwArgs || |requiredKwArgs| > 0 {
        if req.httpMethod == "POST" {
          if req.contentType == "" {
            return Rejected(MISSING_CONTENT_TYPE);
          }
          var ct := Lower(req.contentType);
          if StartsWith(ct, JSON_TYPE) {
            if !req.body.JObject? {
              return Rejected(JSON_NOT_OBJECT);
            }
            src := Collected(JsonArgs(req.body.fields));
          } else if StartsWith(ct, FORM_TYPE) || StartsWith(ct, MULTIPART_TYPE) {
            src := Collected(TextArgs(req.form));
          } else {
            return Rejected(UNSUPPORTED_CONTENT_TYPE + req.contentType);
          }
        }
        if req.httpMethod == "GET" {
          if req.queryString != "" {
            var fromQuery := CollectQuery(req.query);
            src := Collected(fromQuery);
          }
        }
      }
    }

    /** Lines 154-176: assemble the keyword map and check the required names. */
    method BindArgs(req: Request) returns (b: Binding)
      ensures b == Bind(Classification(), req)
    {
      var src := CollectArgs(req);
      if src.Rejected? {
        return BadRequest(src.message);
      }
      var args: KwArgs;
      if src.PathOnly? {
        args := TextArgs(req.matchInfo);
      } else {
        args := src.kw;
        if !hasVarKwArg && |namedKwArgs| > 0 {
          args := KeepNamedLoop(args, namedKwArgs);
        }
        args := MergePath(args, req.matchInfo);
      }
      if hasRequestArg {
        args := args[REQUEST := RequestObject];
      }
      if |requiredKwArgs| > 0 {
        var missing := CheckRequired(requiredKwArgs, args);
        if missing.Some? {
          return BadRequest(MISSING_ARGUMENT + missing.value);
        }
      }
      return Invoke(args);
    }

    /** __call__: answers a request by binding its arguments and calling the handler. */
    method Call(req: Request) returns (resp: Response<R>)
      ensures resp == Respond(Bind(Classification(), req), run)
    {
      var b := BindArgs(req);
      if b.BadRequest? {
        return BadRequestResponse(b.message);
      }
      match run(b.kw)
      case Returns(v) => resp := Returned(v);
      case RaisesApiError(e) => resp := ErrorPayload(Payload(e));
      case RaisesOther(x) => resp := Propagated(x);
    }
  }

  /**
   * RequestHandler(app, fn): runs the five classifiers in the source's order
   * and either raises the signature error or yields a handler whose cached
   * fields are the classification of `params`.
   */
  method NewRequestHandler<R>(params: seq<Param>, run: KwArgs -> HandlerResult<R>)
    returns (r: Result<RequestHandler<R>, SignatureError>)
    ensures r.Err? <==> Classify(params).Err?
    ensures r.Err? ==> r.error == Classify(params).error
    ensures r.Ok? ==> fresh(r.value) && r.value.run == run && Classify(params) == Ok(r.value.Classification())
  {
    var hasRequest := HasRequestArgLoop(params);
    if hasRequest.Err? {
      return Err(hasRequest.error);
    }
    var hasVarKw := HasVarKwArgLoop(params);
    var hasNamed := HasNamedKwArgsLoop(params);
    var named := GetNamedKwArgs(params);
    var required := GetRequiredKwArgs(params);
    var h := new RequestHandler(run, hasRequest.value, hasVarKw, hasNamed, named, required);
    return Ok(h);
  }

  /** Lines 151-153: each query key bound to the first of its values. */
  method CollectQuery(query: map<string, QueryValues>) returns (kw: KwArgs)
    ensures kw == FirstValues(query)
  {
    kw := map[];
    var todo := query.Keys;
    while todo != {}
      invariant todo <= query.Keys
      invariant kw.Keys == query.Keys - todo
      invariant forall k :: k in kw ==> kw[k] == Text(query[k][0])
      decreases todo
    {
      var k :| k in todo;
      kw := kw[k := Text(query[k][0])];
      todo := todo - {k};
    }
  }

  /** Lines 160-164: copy the entries whose key is a declared keyword-only name. */
  method KeepNamedLoop(kw: KwArgs, named: seq<string>) returns (copy: KwArgs)
    ensures copy == KeepNamed(kw, named)
  {
    copy := map[];
    for i := 0 to |named|
      invariant forall k :: k in copy <==> k in kw && k in named[..i]
      invariant forall k :: k in copy ==> copy[k] == kw[k]
    {
      var name := named[i];
      assert named[..i + 1] == named[..i] + [name];
      if name in kw {
        copy := copy[name := kw[name]];
      }
    }
    assert named[..|named|] == named;
  }

  /** Lines 166-169: write every path parameter in, overwriting a collected value. */
  method MergePath(kw: KwArgs, matchInfo: map<string, string>) returns (args: KwArgs)
    ensures args == kw + TextArgs(matchInfo)
  {
    args := kw;
    var todo := matchInfo.Keys;
    while todo != {}
      invariant todo <= matchInfo.Keys
      invariant args.Keys == kw.Keys + (matchInfo.Keys - todo)
      invariant forall k :: k in args ==> args[k] == if k in matchInfo && k !in todo then Text(matchInfo[k]) else kw[k]
      decreases todo
    {
      var k :| k in todo;
      args := args[k := Text(matchInfo[k])];
      todo := todo - {k};
    }
  }

  /** Lines 173-176: the first required name, in declaration order, that `kw` lacks. */
  method CheckRequired(required: seq<string>, kw: KwArgs) returns (missing: Option<string>)
    ensures missing == FirstMissing(required, kw)
  {
    for i := 0 to |required|
      invariant FirstMissing(required[i..], kw) == FirstMissing(required, kw)
    {
      assert required[i..][1..] == required[i + 1..];
      if required[i] !in kw {
        return Some(required[i]);
      }
    }
    return None;
  }
}
