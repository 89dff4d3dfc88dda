/**
 * `neo4j.exceptions.HttpException`: the error a failed HTTP exchange
 * produces, with the status, the parsed body and the request, and the
 * generated status checks `isConflict()` and `isNotFound()`.
 */
module HttpException {
  import opened Wrappers
  import opened JsValue
  import opened Strings
  import OrderedMaps

  datatype HttpException = HttpException(status: Value, data: Value, req: Value, message: string)

  /** The message a caller gets when it gives none. */
  function DefaultMessage(status: Value): string
  {
    "A server error or a network error occurred. Status code: " + ToText(status) + "."
  }

  /** `RESPONSE_CODES`: the name of each generated check and its status code. */
  const ResponseCodes: OrderedMaps.Entries<int> := [("Conflict", 409), ("NotFound", 404)]

  /**
   * `new HttpException(status, data, req, message)` as written: `data` and
   * `req` default to `{}`, but the message is lost, because
   * `Error.call(this, message)` builds a separate error object and leaves
   * `this` with the empty message of the prototype `new Error()`.
   */
  function Create(status: Value, data: Value, req: Value, message: Value): (e: HttpException)
    ensures e.status == status
    ensures Truthy(data) ==> e.data == data
    ensures !Truthy(data) ==> e.data == Obj([])
    ensures Truthy(req) ==> e.req == req
    ensures !Truthy(req) ==> e.req == Obj([])
    ensures e.message == ""
  {
    HttpException(status, Or(data, Obj([])), Or(req, Obj([])), "")
  }

  /** The constructor as intended: the given message, or the default one naming the status. */
  function CreateIntended(status: Value, data: Value, req: Value, message: Value): (e: HttpException)
    ensures e.status == status && e.data == Or(data, Obj([])) && e.req == Or(req, Obj([]))
    ensures Truthy(message) ==> e.message == ToText(message)
    ensures !Truthy(message) ==> e.message == DefaultMessage(status)
  {
    var m := if Truthy(message) then ToText(message) else DefaultMessage(status);
    Create(status, data, req, message).(message := m)
  }

  /** The generated `is<Name>()`: `None` when no such check was generated. */
  function Check(e: HttpException, name: string): (r: Option<bool>)
    ensures r.None? <==> !OrderedMaps.HasKey(ResponseCodes, name)
  {
    match OrderedMaps.Get(ResponseCodes, name)
    case None => None
    case Some(code) => Some(e.status == Num(code))
  }

  /** `isConflict()`: strictly equal to the number 409. */
  predicate IsConflict(e: HttpException)
  {
    e.status == Num(409)
  }

  /** `isNotFound()`: strictly equal to the number 404. */
  predicate IsNotFound(e: HttpException)
  {
    e.status == Num(404)
  }

  /** The two generated checks are exactly `IsConflict` and `IsNotFound`, and no other name is generated. */
  lemma GeneratedChecks(e: HttpException, name: string)
    ensures Check(e, "Conflict") == Some(IsConflict(e))
    ensures Check(e, "NotFound") == Some(IsNotFound(e))
    ensures name != "Conflict" && name != "NotFound" ==> Check(e, name).None?
  {
    assert OrderedMaps.Keys(ResponseCodes) == ["Conflict", "NotFound"];
  }

  /** Strict equality: the text "409" is not a conflict, although `"409" == 409` holds loosely. */
  lemma StatusTextIsNoConflict()
    ensures !IsConflict(Create(Str("409"), Undefined, Undefined, Undefined))
    ensures LooseEquals(Str("409"), Num(409))
  {
    LooseEqualsNumberAndText(409);
    assert NatToString(409) == "409";
  }

  /**
   * Whatever message the caller passes, the exception built as written
   * carries none: it loses the intended message exactly when there is one,
   * and without a message of the caller's there always is the default.
   */
  lemma MessageIsLost(status: Value, data: Value, req: Value, message: Value)
    ensures Create(status, data, req, message).message == ""
    ensures Create(status, data, req, message).message != CreateIntended(status, data, req, message).message
            <==> CreateIntended(status, data, req, message).message != ""
    ensures !Truthy(message) ==> Create(status, data, req, message).message != CreateIntended(status, data, req, message).message
  {
    assert |DefaultMessage(status)| > 0;
  }
}
