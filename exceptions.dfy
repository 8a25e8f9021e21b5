/**
 * The exceptions the integration layer (coordinator, remote, number entities,
 * helpers) raises and catches: the Barco* classes of exceptions.py and the Python
 * built-ins that reach the same handlers.
 */
module Exceptions {

  datatype Exc =
    | StateError        // BarcoStateError: property unavailable in this power state
    | ConnectionError   // BarcoConnectionError
    | AuthError         // BarcoAuthError
    | ApiError          // BarcoApiError
    | TimeoutError      // built-in TimeoutError (also raised by asyncio.wait_for)
    | OSError           // built-in OSError other than TimeoutError
    | ValueError
    | TypeError
    | OverflowError     // float() of an int beyond the double range
    | IndexError
    | AttributeError
    | Cancelled         // asyncio.CancelledError: a BaseException, not an Exception

  /** `isinstance(e, OSError)`: TimeoutError is a subclass of OSError. */
  predicate IsOSError(e: Exc) {
    e.OSError? || e.TimeoutError?
  }

  /** `isinstance(e, Exception)`: what an `except Exception` clause catches. */
  predicate IsException(e: Exc) {
    !e.Cancelled?
  }
}
