/**
 * Route tagging and registration in www/webframe.py: the get/post decorators
 * attach a method and a path to a function, add_route refuses an untagged
 * function and hands (method, path, RequestHandler) to the router, and
 * add_routes scans a module's members in the order dir() lists them.
 * The router is an external collaborator, seen here only as the list of
 * routes it has been given.
 */
module Routes {

  import opened Wrappers
  import opened Inspector
  import opened Binder
  import opened Handler

  /** A module attribute as add_routes sees it; `run` is what calling it does. */
  datatype Member<R> = Member(
    name: string,
    isCallable: bool,
    httpMethod: Option<string>,
    route: Option<string>,
    params: seq<Param>,
    run: KwArgs -> HandlerResult<R>)

  /**
   * What one registration tells the router: method, path, handler name, the
   * RequestHandler's cached classification and the function it calls.
   */
  datatype Route<R> = Route(
    httpMethod: string,
    path: string,
    handler: string,
    classification: Classification,
    run: KwArgs -> HandlerResult<R>)

  /** One registration as the router holds it: method, path and the RequestHandler object. */
  datatype Registered<R> = Registered(httpMethod: string, path: string, name: string, handler: RequestHandler<R>)

  /** What a registration says, read from the handler object's set-once fields. */
  function Describe<R>(reg: Registered<R>): Route<R> {
    Route(reg.httpMethod, reg.path, reg.name, reg.handler.Classification(), reg.handler.run)
  }

  function DescribeAll<R>(regs: seq<Registered<R>>): (rs: seq<Route<R>>)
    ensures |rs| == |regs|
    ensures forall i :: 0 <= i < |regs| ==> rs[i] == Describe(regs[i])
  {
    seq(|regs|, i requires 0 <= i < |regs| => Describe(regs[i]))
  }

  /** The ValueErrors add_route can raise. */
  datatype RouteError = NotTagged(handler: string) | BadSignature(handler: string, error: SignatureError)

  /** @get(path): attaches method GET and the path; functools.wraps(func) keeps the function's signature. */
  function Get<R>(m: Member<R>, path: string): (t: Member<R>)
    ensures t.httpMethod == Some("GET") && t.route == Some(path)
    ensures t.name == m.name && t.isCallable == m.isCallable && t.params == m.params && t.run == m.run
  {
    m.(httpMethod := Some("GET"), route := Some(path))
  }

  /** @post(path) as evidently intended: the same as @get, with method POST. */
  function Post<R>(m: Member<R>, path: string): (t: Member<R>)
    ensures t.httpMethod == Some("POST") && t.route == Some(path)
    ensures t.name == m.name && t.isCallable == m.isCallable && t.params == m.params && t.run == m.run
  {
    m.(httpMethod := Some("POST"), route := Some(path))
  }

  // ---------------------------------------------------------------------
  // @post as written: `@functools.wraps` is applied without the function, so
  // the decorated object is functools.partial(update_wrapper, wrapped=wrapper,
  // assigned=..., updated=...). It is callable and takes the two tags, but its
  // signature is that of the partial and calling it calls update_wrapper.

  /**
   * The signature inspect reports for the partial: `wrapper` stays positional,
   * the keyword-bound `wrapped` and every parameter after it become
   * keyword-only with a default.
   */
  const PARTIAL_SIGNATURE: seq<Param> := [
    Param("wrapper", PositionalOrKeyword, false),
    Param("wrapped", KeywordOnly, true),
    Param("assigned", KeywordOnly, true),
    Param("updated", KeywordOnly, true)]

  const PARTIAL_NAMES: set<string> := {"wrapper", "wrapped", "assigned", "updated"}

  /**
   * How `for attr in v` goes for a value the request bound: `v` is not
   * iterable (a number, a boolean or null), yields nothing, or yields first a
   * string or first something else. Strings yield one-character strings and
   * objects their string keys. The request object itself is never bound for
   * the partial, which declares no `request` parameter.
   */
  datatype Iteration = NotIterable | NoElements | FirstIsString | FirstNotString

  function IterationOf(v: Value): Iteration {
    match v
    case RequestObject => FirstIsString
    case Data(j) =>
      match j
      case JString(s) => if s == "" then NoElements else FirstIsString
      case JArray(xs) => if xs == [] then NoElements else if xs[0].JString? then FirstIsString else FirstNotString
      case JObject(fields) => if fields == map[] then NoElements else FirstIsString
      case _ => NotIterable
  }

  predicate FailsAtFirst(it: Iteration) {
    it == NotIterable || it == FirstNotString
  }

  /**
   * Calling the partial with keyword map `kw`, that is update_wrapper with the
   * partial's bound keywords overridden by `kw`:
   * - binding raises TypeError for a key the partial does not declare or when
   *   no `wrapper` is given;
   * - the loop over `assigned` raises TypeError on a value that is not iterable
   *   or whose first element is not a string (getattr wants a string name);
   * - the default `assigned` reaches `__doc__`, which every object has, and
   *   setting it on `wrapper` (a string or JSON value) raises AttributeError;
   * - an empty `assigned` moves on to `updated`, which raises TypeError in the
   *   same cases as `assigned`, and AttributeError when it is the default or
   *   empty, since `wrapper` has neither `__dict__` nor a writable `__wrapped__`.
   * A request-supplied `assigned` or `updated` whose first element is a string
   * is answered AttributeError; which error Python raises there depends on the
   * attributes of `wrapped` and `wrapper`, which the model does not represent.
   */
  function UpdateWrapperCall<R>(kw: KwArgs): (r: HandlerResult<R>)
    ensures r.RaisesOther?
    ensures !(kw.Keys <= PARTIAL_NAMES) || "wrapper" !in kw ==> r == RaisesOther("TypeError")
    ensures kw.Keys <= PARTIAL_NAMES && "wrapper" in kw ==>
      && ("assigned" !in kw ==> r == RaisesOther("AttributeError"))
      && ("assigned" in kw && FailsAtFirst(IterationOf(kw["assigned"])) ==> r == RaisesOther("TypeError"))
      && ("assigned" in kw && IterationOf(kw["assigned"]) == NoElements ==>
            && ("updated" in kw && FailsAtFirst(IterationOf(kw["updated"])) ==> r == RaisesOther("TypeError"))
            && ("updated" !in kw || IterationOf(kw["updated"]) == NoElements ==> r == RaisesOther("AttributeError")))
  {
    if !(kw.Keys <= PARTIAL_NAMES) || "wrapper" !in kw then RaisesOther("TypeError")
    else if "assigned" !in kw then RaisesOther("AttributeError")
    else
      match IterationOf(kw["assigned"])
      case NotIterable => RaisesOther("TypeError")
      case FirstNotString => RaisesOther("TypeError")
      case FirstIsString => RaisesOther("AttributeError")
      case NoElements =>
        if "updated" in kw && FailsAtFirst(IterationOf(kw["updated"])) then RaisesOther("TypeError")
        else RaisesOther("AttributeError")
  }

  /** @post(path) as written: the tags land on the partial, which replaces the function. */
  function PostAsWritten<R>(m: Member<R>, path: string): (t: Member<R>)
    ensures t.httpMethod == Some("POST") && t.route == Some(path)
    ensures t.name == m.name && t.isCallable
    ensures t.params == PARTIAL_SIGNATURE
    ensures forall kw :: !t.run(kw).Returns?
  {
    Member(m.name, true, Some("POST"), Some(path), PARTIAL_SIGNATURE, (kw: KwArgs) => UpdateWrapperCall(kw))
  }

  /**
   * The signature of the partial classifies as three optional keyword-only
   * names and no required one, whatever the original function declared.
   */
  const PARTIAL_CLASSIFICATION := Classification(false, false, true, ["wrapped", "assigned", "updated"], [])

  lemma PartialSignatureClassification()
    ensures Classify(PARTIAL_SIGNATURE) == Ok(PARTIAL_CLASSIFICATION)
  {
    var ps := PARTIAL_SIGNATURE;
    assert ps[..1][..0] == [] && ps[..2][..1] == ps[..1] && ps[..3][..2] == ps[..2] && ps[..4][..3] == ps[..3];
    assert ps[..4] == ps;
    assert NamedKwArgs(ps[..1]) == [];
    assert NamedKwArgs(ps[..2]) == ["wrapped"];
    assert NamedKwArgs(ps[..3]) == ["wrapped", "assigned"];
    assert NamedKwArgs(ps) == ["wrapped", "assigned", "updated"];
    assert RequiredKwArgs(ps[..1]) == [];
    assert RequiredKwArgs(ps[..2]) == [];
    assert RequiredKwArgs(ps[..3]) == [];
    assert RequiredKwArgs(ps) == [];
    assert HasNamedKwArgs(ps) by { assert ps[1].kind == KeywordOnly; }
    assert !HasVarKwArg(ps) by { assert forall i :: 0 <= i < |ps| ==> ps[i].kind != VarKeyword; }
    assert !HasRequestParam(ps) by { assert forall i :: 0 <= i < |ps| ==> ps[i].name != REQUEST; }
    assert !RequestMisplaced(ps);
  }

  /**
   * A function tagged by @post as written registers whatever its own signature,
   * and no request to it is ever answered with a return value: every call
   * either is a bad request or propagates the partial's exception.
   */
  lemma PostAsWrittenNeverAnswers<R>(m: Member<R>, path: string, req: Request)
    ensures RouteFor(PostAsWritten(m, path)).Ok?
    ensures RouteFor(PostAsWritten(m, path)).value.classification == PARTIAL_CLASSIFICATION
    ensures var r := RouteFor(PostAsWritten(m, path)).value;
      !Respond(Bind(r.classification, req), r.run).Returned?
  {
    PartialSignatureClassification();
    var t := PostAsWritten(m, path);
    var b := Bind(PARTIAL_CLASSIFICATION, req);
    if b.Invoke? {
      assert !t.run(b.kw).Returns?;
    }
  }

  /** add_route's checks: both tags present, then a signature RequestHandler accepts. */
  function RouteFor<R>(m: Member<R>): Result<Route<R>, RouteError>
  {
    if m.route.None? || m.httpMethod.None? then Err(NotTagged(m.name))
    else
      match Classify(m.params)
      case Err(e) => Err(BadSignature(m.name, e))
      case Ok(c) => Ok(Route(m.httpMethod.value, m.route.value, m.name, c, m.run))
  }

  predicate Truthy(s: Option<string>) {
    s.Some? && s.value != ""
  }

  /** add_routes' filter: a public callable whose method and path tags are both truthy. */
  predicate Scanned<R>(m: Member<R>) {
    && !(|m.name| > 0 && m.name[0] == '_')
    && m.isCallable
    && Truthy(m.httpMethod)
    && Truthy(m.route)
  }

  /** The routes add_routes registers, and the error that stopped it, if any. */
  datatype ScanResult<R> = ScanResult(routes: seq<Route<R>>, error: Option<RouteError>)

  /** add_routes over the members in order: skip the unscanned, stop at the first raise. */
  function Scan<R>(ms: seq<Member<R>>): ScanResult<R>
  {
    if ms == [] then ScanResult([], None)
    else
      var prev := Scan(ms[..|ms| - 1]);
      var m := ms[|ms| - 1];
      if prev.error.Some? || !Scanned(m) then prev
      else
        match RouteFor(m)
        case Err(e) => ScanResult(prev.routes, Some(e))
        case Ok(r) => ScanResult(prev.routes + [r], None)
  }

  /** The application's router, reduced to the registrations it has been given. */
  class Router<R> {
    var routes: seq<Registered<R>>

    constructor ()
      ensures routes == []
    {
      routes := [];
    }

    /** What the registered routes say. */
    function Entries(): seq<Route<R>>
      reads this
    {
      DescribeAll(routes)
    }
  }

  /** add_route: raises for an untagged function or a bad signature, else registers one RequestHandler. */
  method AddRoute<R>(router: Router<R>, m: Member<R>) returns (err: Option<RouteError>)
    modifies router
    ensures RouteFor(m).Ok? ==> err == None && router.Entries() == old(router.Entries()) + [RouteFor(m).value]
    ensures RouteFor(m).Ok? ==>
      && |router.routes| == |old(router.routes)| + 1
      && router.routes[..|old(router.routes)|] == old(router.routes)
      && fresh(router.routes[|old(router.routes)|].handler)
      && router.routes[|old(router.routes)|].handler.run == m.run
    ensures RouteFor(m).Err? ==> err == Some(RouteFor(m).error) && router.routes == old(router.routes)
  {
    if m.route.None? || m.httpMethod.None? {
      return Some(NotTagged(m.name));
    }
    var h := NewRequestHandler(m.params, m.run);
    if h.Err? {
      return Some(BadSignature(m.name, h.error));
    }
    router.routes := router.routes + [Registered(m.httpMethod.value, m.route.value, m.name, h.value)];
    assert router.Entries() == old(router.Entries()) + [RouteFor(m).value];
    return None;
  }

  /** add_routes: registers every scanned member in turn; a raise stops the scan. */
  method AddRoutes<R>(router: Router<R>, ms: seq<Member<R>>) returns (err: Option<RouteError>)
    modifies router
    ensures router.Entries() == old(router.Entries()) + Scan(ms).routes
    ensures router.routes[..|old(router.routes)|] == old(router.routes)
    ensures forall i :: |old(router.routes)| <= i < |router.routes| ==> fresh(router.routes[i].handler)
    ensures err == Scan(ms).error
  {
    var i := 0;
    while i < |ms|
      invariant 0 <= i <= |ms|
      invariant router.Entries() == old(router.Entries()) + Scan(ms[..i]).routes
      invariant |old(router.routes)| <= |router.routes|
      invariant router.routes[..|old(router.routes)|] == old(router.routes)
      invariant forall j :: |old(router.routes)| <= j < |router.routes| ==> fresh(router.routes[j].handler)
      invariant Scan(ms[..i]).error == None
    {
      var m := ms[i];
      assert ms[..i + 1][..i] == ms[..i];
      if Scanned(m) {
        err := AddRoute(router, m);
        if err.Some? {
          ScanStopsAtError(ms, i + 1);
          return;
        }
      }
      i := i + 1;
    }
    assert ms[..i] == ms;
    err := None;
  }

  /** Once a prefix of the scan has raised, the rest of the members change nothing. */
  lemma {:induction false} ScanStopsAtError<R>(ms: seq<Member<R>>, n: nat)
    requires n <= |ms|
    requires Scan(ms[..n]).error.Some?
    ensures Scan(ms) == Scan(ms[..n])
    decreases |ms| - n
  {
    if n < |ms| {
      var init := ms[..|ms| - 1];
      assert init[..n] == ms[..n];
      ScanStopsAtError(init, n);
    } else {
      assert ms[..n] == ms;
    }
  }

  /** add_routes never triggers add_route's untagged error: its filter already demands both tags. */
  lemma {:induction false} ScanNeverUntagged<R>(ms: seq<Member<R>>)
    ensures Scan(ms).error.Some? ==> Scan(ms).error.value.BadSignature?
  {
    if ms != [] {
      ScanNeverUntagged(ms[..|ms| - 1]);
    }
  }

  /** Every public, callable, tagged member with an accepted signature is registered, unless the scan raised. */
  lemma {:induction false} ScanRegistersEveryScanned<R>(ms: seq<Member<R>>, i: int)
    requires 0 <= i < |ms| && Scanned(ms[i])
    requires Scan(ms).error.None?
    ensures RouteFor(ms[i]).Ok? && RouteFor(ms[i]).value in Scan(ms).routes
  {
    var init := ms[..|ms| - 1];
    if i < |ms| - 1 {
      assert Scan(init).error.None?;
      assert init[i] == ms[i];
      ScanRegistersEveryScanned(init, i);
    }
  }

  /** Every registered route comes from a public, callable, tagged member with an accepted signature. */
  lemma {:induction false} ScannedRoutesComeFromMembers<R>(ms: seq<Member<R>>, r: Route<R>)
    requires r in Scan(ms).routes
    ensures exists i :: 0 <= i < |ms| && Scanned(ms[i]) && RouteFor(ms[i]) == Ok(r)
  {
    var init := ms[..|ms| - 1];
    var prev := Scan(init);
    if r in prev.routes {
      ScannedRoutesComeFromMembers(init, r);
      var i :| 0 <= i < |init| && Scanned(init[i]) && RouteFor(init[i]) == Ok(r);
      assert ms[i] == init[i];
    } else {
      assert Scanned(ms[|ms| - 1]) && RouteFor(ms[|ms| - 1]) == Ok(r);
    }
  }

  /** Tagging with @get(path) and registering yields exactly one route (GET, path, handler). */
  lemma GetThenRegister<R>(m: Member<R>, path: string, c: Classification)
    requires Classify(m.params) == Ok(c)
    ensures RouteFor(Get(m, path)) == Ok(Route("GET", path, m.name, c, m.run))
  {
  }

  /** add_route accepts an empty path (it only tests for None) while add_routes skips it. */
  lemma EmptyPathOnlyDirectly<R>(m: Member<R>)
    requires m.route == Some("") && m.httpMethod.Some?
    requires Classify(m.params).Ok?
    ensures RouteFor(m).Ok?
    ensures Scan([m]) == ScanResult([], None)
  {
    assert [m][..0] == [];
  }
}
