/**
 * Concrete handlers and requests, stated as lemmas about the binder's specification:
 * the handler shapes and URLs of the usage notes in www/webframe.py
 * (lines 118-127) and the error payload of www/apis.py.
 */
module Scenarios {

  import opened Wrappers
  import opened Inspector
  import opened Apis
  import opened Binder
  import Routes

  const NO_QUERY: map<string, QueryValues> := map[]

  function GetRequest(queryString: string, query: map<string, QueryValues>, matchInfo: map<string, string>): Request {
    Request("GET", "", JNull, map[], queryString, query, matchInfo)
  }

  /** The classification of a handler with one parameter. */
  function ClassifyOne(p: Param): Classification {
    Classification(
      p.name == REQUEST,
      p.kind == VarKeyword,
      p.kind == KeywordOnly,
      if p.kind == KeywordOnly then [p.name] else [],
      if p.kind == KeywordOnly && !p.hasDefault then [p.name] else [])
  }

  lemma ClassifySingle(p: Param)
    ensures Classify([p]) == Ok(ClassifyOne(p))
  {
    var ps := [p];
    assert ps[..0] == [];
    assert forall i :: 0 <= i < |ps| ==> i == 0 && ps[i] == p;
    assert !RequestMisplaced(ps);
    assert HasRequestParam(ps) == (p.name == REQUEST) by {
      if p.name == REQUEST { assert ps[0].name == REQUEST; }
    }
    assert HasVarKwArg(ps) == (p.kind == VarKeyword) by {
      if p.kind == VarKeyword { assert ps[0].kind == VarKeyword; }
    }
    assert HasNamedKwArgs(ps) == (p.kind == KeywordOnly) by {
      if p.kind == KeywordOnly { assert ps[0].kind == KeywordOnly; }
    }
    assert NamedKwArgs(ps) == ClassifyOne(p).namedKwArgs;
    assert RequiredKwArgs(ps) == ClassifyOne(p).requiredKwArgs;
  }

  /** api_comments(*, page='1') on GET /api/comments?page=3 is called with page="3". */
  lemma CommentsPage()
    ensures Classify([Param("page", KeywordOnly, true)]).Ok?
    ensures Bind(Classify([Param("page", KeywordOnly, true)]).value, GetRequest("page=3", map["page" := ["3"]], map[]))
      == Invoke(map["page" := Text("3")])
  {
    ClassifySingle(Param("page", KeywordOnly, true));
    var c := ClassifyOne(Param("page", KeywordOnly, true));
    var req := GetRequest("page=3", map["page" := ["3"]], map[]);
    var kw := map["page" := Text("3")];
    assert c.namedKwArgs == ["page"] && c.requiredKwArgs == [] && !c.hasRequestArg && FiltersToNamed(c);
    assert ArgumentSource(c, req) == Collected(kw);
    assert KeepNamed(kw, c.namedKwArgs) == kw;
    assert TextArgs(req.matchInfo) == map[];
    assert WithRequest(c, ArgsFrom(c, req, Collected(kw))) == kw;
  }

  /** get_blog(id) on GET /blog/42 is called with the path parameter id="42" alone. */
  lemma BlogById(query: map<string, QueryValues>)
    ensures Classify([Param("id", PositionalOrKeyword, false)]).Ok?
    ensures Bind(Classify([Param("id", PositionalOrKeyword, false)]).value, GetRequest("", query, map["id" := "42"]))
      == Invoke(map["id" := Text("42")])
  {
    ClassifySingle(Param("id", PositionalOrKeyword, false));
    var c := ClassifyOne(Param("id", PositionalOrKeyword, false));
    var req := GetRequest("", query, map["id" := "42"]);
    assert !NeedsKwArgs(c) && !c.hasRequestArg && c.requiredKwArgs == [];
    assert ArgumentSource(c, req) == PathOnly;
    assert TextArgs(map["id" := "42"]) == map["id" := Text("42")];
  }

  const SAVE_EMPTY := Request("POST", "application/json", JObject(map[]), map[], "", NO_QUERY, map[])

  /** A POST declared application/json takes its arguments from the object body. */
  lemma JsonBody(req: Request, fields: map<string, Json>)
    requires req.contentType == "application/json" && req.body == JObject(fields)
    ensures BodySource(req) == Collected(JsonArgs(fields))
  {
    var ct := req.contentType;
    assert forall i :: 0 <= i < |ct| ==> !('A' <= ct[i] <= 'Z');
    assert Lower(ct) == ct;
    assert StartsWith(Lower(ct), JSON_TYPE);
  }

  /** save(*, name) on a POST with JSON body {} is answered "Missing argument: name". */
  lemma SaveWithoutName()
    ensures Classify([Param("name", KeywordOnly, false)]).Ok?
    ensures Bind(Classify([Param("name", KeywordOnly, false)]).value, SAVE_EMPTY) == BadRequest("Missing argument: name")
  {
    ClassifySingle(Param("name", KeywordOnly, false));
    var c := ClassifyOne(Param("name", KeywordOnly, false));
    var req := SAVE_EMPTY;
    assert c.namedKwArgs == ["name"] && c.requiredKwArgs == ["name"] && !c.hasRequestArg && NeedsKwArgs(c);
    JsonBody(req, map[]);
    var empty: KwArgs := map[];
    assert JsonArgs(map[]) == empty;
    assert ArgumentSource(c, req) == Collected(empty);
    assert WithRequest(c, ArgsFrom(c, req, Collected(empty))) == empty;
    assert FirstMissing(c.requiredKwArgs, empty) == Some("name");
    assert Bind(c, req) == BadRequest(MISSING_ARGUMENT + "name");
    MissingNameMessage();
  }

  lemma MissingNameMessage()
    ensures MISSING_ARGUMENT + "name" == "Missing argument: name"
  {
  }

  /** A handler raising APIValueError("email", "invalid format") is answered with its payload. */
  lemma ValueErrorPayload<R>(kw: KwArgs, run: KwArgs -> HandlerResult<R>)
    requires run(kw) == RaisesApiError(NewValueError("email", "invalid format"))
    ensures Respond(Invoke(kw), run)
      == ErrorPayload(map["error" := "value:invalid", "data" := "email", "message" := "invalid format"])
  {
  }

  /** handler(request, page) is refused at registration: a positional parameter follows `request`. */
  lemma RequestBeforePositional()
    ensures Classify([Param("request", PositionalOrKeyword, false), Param("page", PositionalOrKeyword, false)])
      == Err(RequestNotLast)
  {
    var ps := [Param("request", PositionalOrKeyword, false), Param("page", PositionalOrKeyword, false)];
    assert ps[0].name == REQUEST && ps[1].name != REQUEST && !MayFollowRequest(ps[1].kind);
  }

  /** handler(request, *, page) is accepted and gets the request object bound under `request`. */
  lemma RequestBeforeKeywordOnly()
    ensures Classify([Param("request", PositionalOrKeyword, false), Param("page", KeywordOnly, true)]).Ok?
    ensures Classify([Param("request", PositionalOrKeyword, false), Param("page", KeywordOnly, true)]).value.hasRequestArg
  {
    var ps := [Param("request", PositionalOrKeyword, false), Param("page", KeywordOnly, true)];
    assert ps[0].name == REQUEST;
    assert !RequestMisplaced(ps) by {
      forall i, j | 0 <= i < j < |ps| && ps[i].name == REQUEST && ps[j].name != REQUEST
        ensures MayFollowRequest(ps[j].kind)
      {
        assert j == 1;
      }
    }
  }

  /**
   * save(*, name) on GET /save with no query string: the arguments fall back to
   * the path parameters, and the required-name check still runs on them.
   */
  lemma RequiredCheckedOnPathFallback(matchInfo: map<string, string>)
    ensures Classify([Param("name", KeywordOnly, false)]).Ok?
    ensures "name" !in matchInfo ==>
      Bind(Classify([Param("name", KeywordOnly, false)]).value, GetRequest("", NO_QUERY, matchInfo)) == BadRequest("Missing argument: name")
    ensures "name" in matchInfo ==>
      Bind(Classify([Param("name", KeywordOnly, false)]).value, GetRequest("", NO_QUERY, matchInfo)) == Invoke(TextArgs(matchInfo))
  {
    ClassifySingle(Param("name", KeywordOnly, false));
    var c := ClassifyOne(Param("name", KeywordOnly, false));
    assert c.requiredKwArgs == ["name"] && !c.hasRequestArg && NeedsKwArgs(c);
    var req := GetRequest("", NO_QUERY, matchInfo);
    assert ArgumentSource(c, req) == PathOnly;
    var kw := TextArgs(matchInfo);
    assert WithRequest(c, ArgsFrom(c, req, PathOnly)) == kw;
    assert c.requiredKwArgs[1..] == [];
    if "name" in matchInfo {
      assert FirstMissing(c.requiredKwArgs, kw) == None;
    } else {
      assert FirstMissing(c.requiredKwArgs, kw) == Some("name");
      assert Bind(c, req) == BadRequest(MISSING_ARGUMENT + "name");
      MissingNameMessage();
    }
  }

  /**
   * save(*, name) tagged @post('/save') as evidently intended and posted JSON {}:
   * the route keeps the function's signature and the answer is "Missing argument: name".
   */
  lemma SaveWithoutNamePosted<R>(m: Routes.Member<R>)
    requires m.params == [Param("name", KeywordOnly, false)]
    ensures Routes.RouteFor(Routes.Post(m, "/save")).Ok?
    ensures var r := Routes.RouteFor(Routes.Post(m, "/save")).value;
      Respond(Bind(r.classification, SAVE_EMPTY), r.run) == BadRequestResponse("Missing argument: name")
  {
    SaveWithoutName();
  }

  /**
   * The same function tagged by @post as written: the tags sit on functools'
   * partial, whose signature takes no required keyword, so the empty map is
   * passed on and the call raises TypeError instead of the 400 answer.
   */
  lemma SaveWithoutNamePostedAsWritten<R>(m: Routes.Member<R>)
    ensures Routes.RouteFor(Routes.PostAsWritten(m, "/save")).Ok?
    ensures var r := Routes.RouteFor(Routes.PostAsWritten(m, "/save")).value;
      Respond(Bind(r.classification, SAVE_EMPTY), r.run) == Propagated("TypeError")
  {
    Routes.PartialSignatureClassification();
    var c := Routes.PARTIAL_CLASSIFICATION;
    var empty: KwArgs := map[];
    JsonBody(SAVE_EMPTY, map[]);
    assert JsonArgs(map[]) == empty;
    assert ArgumentSource(c, SAVE_EMPTY) == Collected(empty);
    assert WithRequest(c, ArgsFrom(c, SAVE_EMPTY, Collected(empty))) == empty;
    assert Bind(c, SAVE_EMPTY) == Invoke(empty);
  }

  /**
   * `@post('/x/{wrapper}')` as written, posted JSON {"assigned": 5}: the filter
   * keeps `assigned`, and update_wrapper's `for attr in assigned` raises TypeError.
   */
  lemma NumericAssignedPostedAsWritten<R>(m: Routes.Member<R>)
    ensures var r := Routes.RouteFor(Routes.PostAsWritten(m, "/x/{wrapper}")).value;
      var req := Request("POST", "application/json", JObject(map["assigned" := JNumber("5")]), map[], "", NO_QUERY, map["wrapper" := "x"]);
      Routes.RouteFor(Routes.PostAsWritten(m, "/x/{wrapper}")).Ok? && Respond(Bind(r.classification, req), r.run) == Propagated("TypeError")
  {
    Routes.PartialSignatureClassification();
    var c := Routes.PARTIAL_CLASSIFICATION;
    var req := Request("POST", "application/json", JObject(map["assigned" := JNumber("5")]), map[], "", NO_QUERY, map["wrapper" := "x"]);
    var body: KwArgs := map["assigned" := Data(JNumber("5"))];
    JsonBody(req, map["assigned" := JNumber("5")]);
    assert JsonArgs(map["assigned" := JNumber("5")]) == body;
    assert ArgumentSource(c, req) == Collected(body);
    assert KeepNamed(body, c.namedKwArgs) == body;
    var kw := body["wrapper" := Text("x")];
    assert WithRequest(c, ArgsFrom(c, req, Collected(body))) == kw;
    assert Bind(c, req) == Invoke(kw);
    assert kw.Keys <= Routes.PARTIAL_NAMES;
  }
}
