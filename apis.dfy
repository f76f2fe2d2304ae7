/**
 * The structured API errors of www/apis.py: a base error carrying an error
 * code, a data field and a message, and three subclasses with fixed codes.
 * Python's class hierarchy is closed here, so it becomes one datatype whose
 * `kind` records which class was instantiated; every kind is an APIError,
 * which is what lets the request binder catch all of them in one clause.
 */
module Apis {

  import opened Wrappers

  /** The class an error value was created from. */
  datatype ErrorKind = Base | ValueInvalid | ResourceNotFound | PermissionDenied

  /** An APIError instance, with the three attributes the binder reads. */
  datatype ApiError = ApiError(kind: ErrorKind, error: string, data: string, message: string)

  const VALUE_INVALID := "value:invalid"
  const VALUE_NOTFOUND := "value:notfound"
  const PERMISSION_FORBIDDEN := "permission:forbidden"
  const PERMISSION_DATA := "permission"

  /** The fixed error code each subclass passes to the base constructor. */
  function CodeOf(kind: ErrorKind): (code: string)
    requires kind != Base
  {
    match kind
    case ValueInvalid => VALUE_INVALID
    case ResourceNotFound => VALUE_NOTFOUND
    case PermissionDenied => PERMISSION_FORBIDDEN
  }

  /** Which subclass a wire error code belongs to, if any. */
  function KindOfCode(code: string): (kind: Option<ErrorKind>)
    ensures kind.Some? ==> kind.value != Base && CodeOf(kind.value) == code
  {
    if code == VALUE_INVALID then Some(ValueInvalid)
    else if code == VALUE_NOTFOUND then Some(ResourceNotFound)
    else if code == PERMISSION_FORBIDDEN then Some(PermissionDenied)
    else None
  }

  /** APIError(error, data='', message=''): the base constructor, as intended. */
  function NewApiError(error: string, data: string := "", message: string := ""): (e: ApiError)
    ensures e.kind == Base
    ensures e.error == error && e.data == data && e.message == message
  {
    ApiError(Base, error, data, message)
  }

  /** APIValueError(field, message=''): an invalid input field. */
  function NewValueError(field: string, message: string := ""): (e: ApiError)
    ensures e.kind == ValueInvalid
    ensures e.error == "value:invalid" && e.data == field && e.message == message
  {
    var base := NewApiError(CodeOf(ValueInvalid), field, message);
    base.(kind := ValueInvalid)
  }

  /** APIResourceNotFoundError(field, message=''): a missing resource. */
  function NewResourceNotFoundError(field: string, message: string := ""): (e: ApiError)
    ensures e.kind == ResourceNotFound
    ensures e.error == "value:notfound" && e.data == field && e.message == message
  {
    var base := NewApiError(CodeOf(ResourceNotFound), field, message);
    base.(kind := ResourceNotFound)
  }

  /** APIPermissionError(message=''): the data attribute is always "permission". */
  function NewPermissionError(message: string := ""): (e: ApiError)
    ensures e.kind == PermissionDenied
    ensures e.error == "permission:forbidden" && e.data == "permission" && e.message == message
  {
    var base := NewApiError(CodeOf(PermissionDenied), PERMISSION_DATA, message);
    base.(kind := PermissionDenied)
  }

  /** The dictionary the binder answers with when a handler raises `e`. */
  function Payload(e: ApiError): (p: map<string, string>)
    ensures p.Keys == {"error", "data", "message"}
    ensures p["error"] == e.error && p["data"] == e.data && p["message"] == e.message
  {
    map["error" := e.error, "data" := e.data, "message" := e.message]
  }

  /**
   * A subclass error can be told apart from the others by its payload alone:
   * the error code in the payload names the class it was raised as.
   */
  lemma PayloadIdentifiesSubclass(e: ApiError)
    requires e.kind != Base
    requires e.error == CodeOf(e.kind)
    ensures KindOfCode(Payload(e)["error"]) == Some(e.kind)
  {
  }

  /** Every subclass constructor yields an error whose code matches its class. */
  lemma SubclassesCarryTheirCode(field: string, message: string)
    ensures NewValueError(field, message).error == CodeOf(ValueInvalid)
    ensures NewResourceNotFoundError(field, message).error == CodeOf(ResourceNotFound)
    ensures NewPermissionError(message).error == CodeOf(PermissionDenied)
    ensures KindOfCode(NewValueError(field, message).error) == Some(ValueInvalid)
    ensures KindOfCode(NewResourceNotFoundError(field, message).error) == Some(ResourceNotFound)
    ensures KindOfCode(NewPermissionError(message).error) == Some(PermissionDenied)
  {
  }

  // ---------------------------------------------------------------------
  // The base constructor as written calls super() with the undefined name
  // APIException, so constructing any APIError raises NameError before a
  // single attribute is set.

  /** What evaluating a constructor call yields: an instance or a raised exception. */
  datatype Construction = Constructed(e: ApiError) | RaisedNameError(name: string)

  /** APIError.__init__ as written: the super() call fails on its first argument. */
  function ConstructAsWritten(kind: ErrorKind, error: string, data: string, message: string): (c: Construction)
    ensures c.RaisedNameError? && c.name == "APIException"
  {
    RaisedNameError("APIException")
  }

  /**
   * The discrepancy on a concrete input: APIValueError("email", "invalid format")
   * raises NameError as written, where the intended constructor yields the
   * value:invalid error for field "email".
   */
  lemma ValueErrorConstructionFails()
    ensures ConstructAsWritten(ValueInvalid, VALUE_INVALID, "email", "invalid format")
      != Constructed(NewValueError("email", "invalid format"))
    ensures NewValueError("email", "invalid format") == ApiError(ValueInvalid, "value:invalid", "email", "invalid format")
  {
  }
}
