/** The exceptions the synthesis path can raise or receive, and the Python values the
    validating setters inspect.  Only what the classifier and the setters look at is kept:
    the class (with `InvalidStatus` a subclass of `InvalidHandshake`, as in the websockets
    library), the HTTP status of a rejected handshake, and the message of the errors the
    model raises itself. */
module Exceptions {

  datatype Exc =
    | KeyboardInterrupt
      /** The websocket handshake was answered with a non-101 HTTP status. */
    | InvalidStatus(status: int)
      /** Any other handshake failure. */
    | InvalidHandshake(reason: string)
    | TimeoutError
      /** `websocket.recv()` after the server closed the connection. */
    | ConnectionClosed
      /** `requests.get` failed to fetch the token page. */
    | RequestError
    | IndexError
    | TypeError(message: string)
    | ValueError(message: string)
    | NotImplementedError(message: string)
    | AssertionError
      /** Any other exception, named by its class. */
    | OtherException(className: string)

  /** `isinstance(e, InvalidHandshake)`: true for the class and its subclass `InvalidStatus`. */
  predicate IsHandshakeFailure(e: Exc) {
    e.InvalidStatus? || e.InvalidHandshake?
  }

  /** A Python argument value, as far as `isinstance` tells the setters apart. */
  datatype PyValue =
    | PyBool(b: bool)
    | PyInt(i: int)
    | PyStr(s: string)
    | PyNone
    | PyOther

  /** `isinstance(v, int)`: `bool` is a subclass of `int`. */
  predicate IsInt(v: PyValue) {
    v.PyInt? || v.PyBool?
  }

  /** `int(v)` for a value with `IsInt(v)`: `True` is 1 and `False` is 0. */
  function IntValue(v: PyValue): (n: int)
    requires IsInt(v)
    ensures v.PyBool? ==> (n == 1 <==> v.b) && (n == 0 <==> !v.b)
    ensures v.PyInt? ==> n == v.i
  {
    if v.PyInt? then v.i else if v.b then 1 else 0
  }
}
