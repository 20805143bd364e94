/** The vocabulary the host authentication framework gives a strategy: the
    request it authenticates and the three terminal results a strategy
    reports through `error`, `fail` and `success`. */
module Passport {
  import opened Js

  /** The parts of a request the strategy reads: the attached application
      state (`req.state`) and the pending slot (`req._state`) consulted only
      outside strict mode. */
  datatype Request = Request(state: JsValue, pending: JsValue)

  /** The outcome of one authentication attempt. `self.error()` and
      `self.fail()` called without an argument carry `undefined`. */
  datatype Outcome =
    | Error(cause: JsValue)
    | Fail(info: JsValue)
    | Success(user: JsValue, info: JsValue)
}
