/**
 * The status codes every driver function returns (ruuvi_driver_status_t, a
 * uint32_t bit mask). Each error is one bit, so that results of several calls
 * can be OR-accumulated and still be told apart.
 */
module DriverStatus {

  type Status = bv32

  const SUCCESS: Status               := 0
  const ERROR_INTERNAL: Status        := 0x0000_0001
  const ERROR_NOT_FOUND: Status       := 0x0000_0004
  const ERROR_NOT_SUPPORTED: Status   := 0x0000_0008
  const ERROR_INVALID_PARAM: Status   := 0x0000_0010
  const ERROR_INVALID_STATE: Status   := 0x0000_0020
  const ERROR_NULL: Status            := 0x0000_0800
  const ERROR_NOT_IMPLEMENTED: Status := 0x0001_0000
  const ERROR_SELFTEST: Status        := 0x0002_0000
  const ERROR_NOT_INITIALIZED: Status := 0x0008_0000
  const ERROR_FATAL: Status           := 0x8000_0000

  /** `a | b`: the status carrying every error bit of either operand. */
  function Or(a: Status, b: Status): Status
  {
    a | b
  }

  /** Whether `s` carries the error bit(s) of `error`. */
  predicate Has(s: Status, error: Status)
  {
    s & error == error
  }

  /** OR-accumulation keeps every bit it had and gains exactly the new ones. */
  lemma OrKeepsBits(a: Status, b: Status)
    ensures Has(Or(a, b), a) && Has(Or(a, b), b)
    ensures Or(a, b) == SUCCESS <==> a == SUCCESS && b == SUCCESS
    ensures Or(a, SUCCESS) == a && Or(SUCCESS, b) == b
  {
  }

  /** OR-accumulation may be regrouped. */
  lemma OrAssociates(a: Status, b: Status, c: Status)
    ensures Or(Or(a, b), c) == Or(a, Or(b, c))
  {
  }

  /** OR-ing a status into itself changes nothing. */
  lemma OrIdempotent(a: Status)
    ensures Or(a, a) == a
  {
  }
}
