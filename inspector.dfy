/**
 * The signature classifiers of www/webframe.py (get_required_kw_args,
 * get_named_kw_args, has_named_kw_args, has_var_kw_arg, has_request_arg).
 * A handler's signature is given as its parameter list in declaration order
 * rather than obtained by reflection. Each classifier has a specification
 * function and a method that runs the source's loop and is proved to agree
 * with it.
 */
module Inspector {

  import opened Wrappers

  /** The kind of a Python parameter, as inspect.Parameter reports it. */
  datatype Kind = PositionalOnly | PositionalOrKeyword | VarPositional | KeywordOnly | VarKeyword

  datatype Param = Param(name: string, kind: Kind, hasDefault: bool)

  /** The registration-time error raised when `request` is followed by a data parameter. */
  datatype SignatureError = RequestNotLast

  const REQUEST := "request"

  /** The kinds allowed after a `request` parameter: *args, keyword-only, **kw. */
  predicate MayFollowRequest(k: Kind) {
    k == VarPositional || k == KeywordOnly || k == VarKeyword
  }

  // ---------------------------------------------------------------------
  // Specification functions

  /** Names of the keyword-only parameters, in declaration order. */
  function NamedKwArgs(ps: seq<Param>): seq<string>
  {
    if ps == [] then []
    else
      var last := ps[|ps| - 1];
      NamedKwArgs(ps[..|ps| - 1]) + (if last.kind == KeywordOnly then [last.name] else [])
  }

  /** Names of the keyword-only parameters without a default, in declaration order. */
  function RequiredKwArgs(ps: seq<Param>): seq<string>
  {
    if ps == [] then []
    else
      var last := ps[|ps| - 1];
      RequiredKwArgs(ps[..|ps| - 1]) + (if last.kind == KeywordOnly && !last.hasDefault then [last.name] else [])
  }

  predicate HasNamedKwArgs(ps: seq<Param>) {
    exists i :: 0 <= i < |ps| && ps[i].kind == KeywordOnly
  }

  predicate HasVarKwArg(ps: seq<Param>) {
    exists i :: 0 <= i < |ps| && ps[i].kind == VarKeyword
  }

  /** Some parameter named `request` is followed by a parameter that may not follow it. */
  predicate RequestMisplaced(ps: seq<Param>) {
    exists i, j :: 0 <= i < j < |ps| && ps[i].name == REQUEST && ps[j].name != REQUEST && !MayFollowRequest(ps[j].kind)
  }

  predicate HasRequestParam(ps: seq<Param>) {
    exists i :: 0 <= i < |ps| && ps[i].name == REQUEST
  }

  /** has_request_arg: an error when `request` is misplaced, otherwise whether it exists. */
  function HasRequestArg(ps: seq<Param>): Result<bool, SignatureError>
  {
    if RequestMisplaced(ps) then Err(RequestNotLast) else Ok(HasRequestParam(ps))
  }

  /** `a` is obtained from `b` by deleting elements (order is kept): `a` is a subsequence of `b`. */
  predicate IsSubsequence<T(==)>(a: seq<T>, b: seq<T>)
    decreases |b|
  {
    if a == [] then true
    else if b == [] then false
    else
      || (a[|a| - 1] == b[|b| - 1] && IsSubsequence(a[..|a| - 1], b[..|b| - 1]))
      || IsSubsequence(a, b[..|b| - 1])
  }

  // ---------------------------------------------------------------------
  // The cached classification RequestHandler.__init__ computes

  datatype Classification = Classification(
    hasRequestArg: bool,
    hasVarKwArg: bool,
    hasNamedKwArgs: bool,
    namedKwArgs: seq<string>,
    requiredKwArgs: seq<string>)

  /** The five classifiers in the order __init__ calls them; the first may raise. */
  function Classify(ps: seq<Param>): Result<Classification, SignatureError>
  {
    match HasRequestArg(ps)
    case Err(e) => Err(e)
    case Ok(found) =>
      Ok(Classification(found, HasVarKwArg(ps), HasNamedKwArgs(ps), NamedKwArgs(ps), RequiredKwArgs(ps)))
  }

  /** The relations between the five answers that hold for every signature. */
  predicate WellFormed(c: Classification) {
    && c.hasNamedKwArgs == (|c.namedKwArgs| > 0)
    && IsSubsequence(c.requiredKwArgs, c.namedKwArgs)
  }

  // ---------------------------------------------------------------------
  // The source's loops

  /** get_required_kw_args */
  method GetRequiredKwArgs(ps: seq<Param>) returns (args: seq<string>)
    ensures args == RequiredKwArgs(ps)
  {
    args := [];
    var i := 0;
    while i < |ps|
      invariant 0 <= i <= |ps|
      invariant args == RequiredKwArgs(ps[..i])
    {
      var p := ps[i];
      assert ps[..i + 1][..i] == ps[..i];
      if p.kind == KeywordOnly && !p.hasDefault {
        args := args + [p.name];
      }
      i := i + 1;
    }
    assert ps[..i] == ps;
  }

  /** get_named_kw_args */
  method GetNamedKwArgs(ps: seq<Param>) returns (args: seq<string>)
    ensures args == NamedKwArgs(ps)
  {
    args := [];
    var i := 0;
    while i < |ps|
      invariant 0 <= i <= |ps|
      invariant args == NamedKwArgs(ps[..i])
    {
      var p := ps[i];
      assert ps[..i + 1][..i] == ps[..i];
      if p.kind == KeywordOnly {
        args := args + [p.name];
      }
      i := i + 1;
    }
    assert ps[..i] == ps;
  }

  /** has_named_kw_args: returns at the first keyword-only parameter. */
  method HasNamedKwArgsLoop(ps: seq<Param>) returns (found: bool)
    ensures found == HasNamedKwArgs(ps)
  {
    var i := 0;
    while i < |ps|
      invariant 0 <= i <= |ps|
      invariant forall j :: 0 <= j < i ==> ps[j].kind != KeywordOnly
    {
      if ps[i].kind == KeywordOnly {
        return true;
      }
      i := i + 1;
    }
    return false;
  }

  /** has_var_kw_arg: True at the first **kw parameter, None (falsy) otherwise. */
  method HasVarKwArgLoop(ps: seq<Param>) returns (found: bool)
    ensures found == HasVarKwArg(ps)
  {
    var i := 0;
    while i < |ps|
      invariant 0 <= i <= |ps|
      invariant forall j :: 0 <= j < i ==> ps[j].kind != VarKeyword
    {
      if ps[i].kind == VarKeyword {
        return true;
      }
      i := i + 1;
    }
    return false;
  }

  /** has_request_arg: raises at the first data parameter seen after `request`. */
  method HasRequestArgLoop(ps: seq<Param>) returns (r: Result<bool, SignatureError>)
    ensures r == HasRequestArg(ps)
  {
    var found := false;
    var i := 0;
    while i < |ps|
      invariant 0 <= i <= |ps|
      invariant found <==> exists k :: 0 <= k < i && ps[k].name == REQUEST
      invariant !exists k, j :: 0 <= k < j < i && ps[k].name == REQUEST && ps[j].name != REQUEST && !MayFollowRequest(ps[j].kind)
    {
      var p := ps[i];
      if p.name == REQUEST {
        found := true;
        i := i + 1;
        continue;
      }
      if found && !MayFollowRequest(p.kind) {
        var k :| 0 <= k < i && ps[k].name == REQUEST;
        assert RequestMisplaced(ps) by {
          assert 0 <= k < i < |ps| && ps[k].name == REQUEST && ps[i].name != REQUEST && !MayFollowRequest(ps[i].kind);
        }
        return Err(RequestNotLast);
      }
      i := i + 1;
    }
    return Ok(found);
  }

  // ---------------------------------------------------------------------
  // Properties

  /** A name is in the named list exactly when some keyword-only parameter carries it. */
  lemma {:induction false} NamedKwArgsMembership(ps: seq<Param>, n: string)
    ensures n in NamedKwArgs(ps) <==> exists i :: 0 <= i < |ps| && ps[i].kind == KeywordOnly && ps[i].name == n
  {
    if ps != [] {
      var init := ps[..|ps| - 1];
      NamedKwArgsMembership(init, n);
      assert forall i :: 0 <= i < |init| ==> init[i] == ps[i];
    }
  }

  /** A name is required exactly when some keyword-only parameter without a default carries it. */
  lemma {:induction false} RequiredKwArgsMembership(ps: seq<Param>, n: string)
    ensures n in RequiredKwArgs(ps) <==>
      exists i :: 0 <= i < |ps| && ps[i].kind == KeywordOnly && !ps[i].hasDefault && ps[i].name == n
  {
    if ps != [] {
      var init := ps[..|ps| - 1];
      RequiredKwArgsMembership(init, n);
      assert forall i :: 0 <= i < |init| ==> init[i] == ps[i];
    }
  }

  /** The named list follows declaration order: classifying a longer signature extends it. */
  lemma {:induction false} NamedKwArgsAppend(ps: seq<Param>, qs: seq<Param>)
    ensures NamedKwArgs(ps + qs) == NamedKwArgs(ps) + NamedKwArgs(qs)
    decreases |qs|
  {
    if qs == [] {
      assert ps + qs == ps;
    } else {
      var init, last := qs[..|qs| - 1], qs[|qs| - 1];
      NamedKwArgsAppend(ps, init);
      var tail := if last.kind == KeywordOnly then [last.name] else [];
      assert (ps + qs)[..|ps + qs| - 1] == ps + init && (ps + qs)[|ps + qs| - 1] == last;
      calc {
        NamedKwArgs(ps + qs);
        NamedKwArgs(ps + init) + tail;
        NamedKwArgs(ps) + NamedKwArgs(init) + tail;
        { assert NamedKwArgs(qs) == NamedKwArgs(init) + tail; }
        NamedKwArgs(ps) + NamedKwArgs(qs);
      }
    }
  }

  /** The required list follows declaration order in the same way. */
  lemma {:induction false} RequiredKwArgsAppend(ps: seq<Param>, qs: seq<Param>)
    ensures RequiredKwArgs(ps + qs) == RequiredKwArgs(ps) + RequiredKwArgs(qs)
    decreases |qs|
  {
    if qs == [] {
      assert ps + qs == ps;
    } else {
      var init, last := qs[..|qs| - 1], qs[|qs| - 1];
      RequiredKwArgsAppend(ps, init);
      var tail := if last.kind == KeywordOnly && !last.hasDefault then [last.name] else [];
      assert (ps + qs)[..|ps + qs| - 1] == ps + init && (ps + qs)[|ps + qs| - 1] == last;
      calc {
        RequiredKwArgs(ps + qs);
        RequiredKwArgs(ps + init) + tail;
        RequiredKwArgs(ps) + RequiredKwArgs(init) + tail;
        { assert RequiredKwArgs(qs) == RequiredKwArgs(init) + tail; }
        RequiredKwArgs(ps) + RequiredKwArgs(qs);
      }
    }
  }

  /** The required list is the named list with the defaulted names deleted. */
  lemma {:induction false} RequiredIsSubsequenceOfNamed(ps: seq<Param>)
    ensures IsSubsequence(RequiredKwArgs(ps), NamedKwArgs(ps))
  {
    if ps != [] {
      var init := ps[..|ps| - 1];
      var last := ps[|ps| - 1];
      RequiredIsSubsequenceOfNamed(init);
      var r, n := RequiredKwArgs(init), NamedKwArgs(init);
      if last.kind != KeywordOnly {
        assert RequiredKwArgs(ps) == r && NamedKwArgs(ps) == n;
      } else if !last.hasDefault {
        var r', n' := r + [last.name], n + [last.name];
        assert RequiredKwArgs(ps) == r' && NamedKwArgs(ps) == n';
        assert r'[..|r'| - 1] == r && n'[..|n'| - 1] == n;
      } else {
        var n' := n + [last.name];
        assert RequiredKwArgs(ps) == r && NamedKwArgs(ps) == n';
        assert n'[..|n'| - 1] == n;
        assert r != [] ==> IsSubsequence(r, n'[..|n'| - 1]);
      }
    }
  }

  /** has_named_kw_args answers whether get_named_kw_args is non-empty. */
  lemma HasNamedKwArgsIffNonEmpty(ps: seq<Param>)
    ensures HasNamedKwArgs(ps) <==> |NamedKwArgs(ps)| > 0
  {
    if HasNamedKwArgs(ps) {
      var i :| 0 <= i < |ps| && ps[i].kind == KeywordOnly;
      NamedKwArgsMembership(ps, ps[i].name);
    } else if |NamedKwArgs(ps)| > 0 {
      NamedKwArgsMembership(ps, NamedKwArgs(ps)[0]);
    }
  }

  /** has_request_arg never raises on a signature without a `request` parameter. */
  lemma NoRequestNeverRaises(ps: seq<Param>)
    requires forall i :: 0 <= i < |ps| ==> ps[i].name != REQUEST
    ensures HasRequestArg(ps) == Ok(false)
  {
  }

  /** Every classification that __init__ can cache is well formed. */
  lemma ClassifyWellFormed(ps: seq<Param>)
    requires Classify(ps).Ok?
    ensures WellFormed(Classify(ps).value)
  {
    HasNamedKwArgsIffNonEmpty(ps);
    RequiredIsSubsequenceOfNamed(ps);
  }
}
