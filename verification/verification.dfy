/** Invoking the user's verify callback (lib/strategy.js:51-79): the argument
    list is chosen from the request-passing flag and the callback's declared
    arity, and the callback's completion `done(err, user, info)` or a
    synchronous throw is mapped to one of the three outcomes. */
module Dispatch {
  import opened Js
  import opened Passport

  /** One argument passed to the verify callback. */
  datatype Arg = RequestArg(req: Request) | ValueArg(v: JsValue) | DoneArg

  /** What the callback does when called: complete through `done`, or throw
      before doing so. */
  datatype Reply = Done(err: JsValue, user: JsValue, info: JsValue) | Throws(ex: JsValue)

  /** The user's verify callback: its declared arity (`Function.length`) and
      its behaviour on a given argument list. */
  datatype Callback = Callback(arity: nat, run: seq<Arg> -> Reply)

  /** The four argument shapes of lines 62-74. */
  datatype CallShape =
    | RequestUserStateDone
    | RequestUserDone
    | UserStateDone
    | UserDone

  /** The shape picked by the flag and the arity; any arity the table does
      not expect falls to the shorter shape. */
  function ShapeFor(passReq: bool, arity: nat): CallShape {
    if passReq then (if arity == 4 then RequestUserStateDone else RequestUserDone)
    else (if arity == 3 then UserStateDone else UserDone)
  }

  /** The argument list of a shape; `state.user` is read from the state. */
  function ShapeArguments(shape: CallShape, req: Request, state: JsValue): seq<Arg>
    requires state != Undefined && state != Null
  {
    var user := ValueArg(UserOf(state));
    match shape
    case RequestUserStateDone => [RequestArg(req), user, ValueArg(state), DoneArg]
    case RequestUserDone => [RequestArg(req), user, DoneArg]
    case UserStateDone => [user, ValueArg(state), DoneArg]
    case UserDone => [user, DoneArg]
  }

  /** The argument list the callback receives (lib/strategy.js:61-74). */
  function Arguments(passReq: bool, arity: nat, req: Request, state: JsValue): (args: seq<Arg>)
    requires state != Undefined && state != Null
    ensures passReq && arity == 4 ==> args == [RequestArg(req), ValueArg(UserOf(state)), ValueArg(state), DoneArg]
    ensures passReq && arity != 4 ==> args == [RequestArg(req), ValueArg(UserOf(state)), DoneArg]
    ensures !passReq && arity == 3 ==> args == [ValueArg(UserOf(state)), ValueArg(state), DoneArg]
    ensures !passReq && arity != 3 ==> args == [ValueArg(UserOf(state)), DoneArg]
  {
    ShapeArguments(ShapeFor(passReq, arity), req, state)
  }

  /** For every arity the table expects (3 or 4 with the request, 2 or 3
      without), the callback receives exactly as many arguments as it
      declares, `done` last; the request comes first exactly when it is
      passed, the state's user follows it, and the state object sits just
      before `done` in the longer shape. */
  lemma ArgumentsFitArity(passReq: bool, arity: nat, req: Request, state: JsValue)
    requires state != Undefined && state != Null
    requires if passReq then arity == 3 || arity == 4 else arity == 2 || arity == 3
    ensures var args := Arguments(passReq, arity, req, state);
      && |args| == arity
      && args[arity - 1] == DoneArg
      && (args[0] == RequestArg(req) <==> passReq)
      && args[if passReq then 1 else 0] == ValueArg(UserOf(state))
      && (arity == (if passReq then 4 else 3) ==> args[arity - 2] == ValueArg(state))
  {
  }

  /** The completion callback `verified` (lib/strategy.js:53-58). */
  function Verified(err: JsValue, user: JsValue, info: JsValue): (r: Outcome)
    ensures r.Error? <==> Truthy(err)
    ensures r.Error? ==> r.cause == err
    ensures r.Fail? <==> !Truthy(err) && !Truthy(user)
    ensures r.Fail? ==> r.info == info
    ensures r.Success? ==> Truthy(user) && r.user == user && r.info == info
  {
    if Truthy(err) then Error(err)
    else if !Truthy(user) then Fail(info)
    else Success(user, info)
  }

  /** Calling the callback inside the `try` of lib/strategy.js:60-77: a
      synchronous throw becomes `error(ex)`, a completion is mapped by
      `Verified`. */
  function Invoke(cb: Callback, passReq: JsValue, req: Request, state: JsValue): (r: Outcome)
    requires state != Undefined && state != Null
    ensures var reply := cb.run(Arguments(Truthy(passReq), cb.arity, req, state));
      && (r.Success? <==> reply.Done? && !Truthy(reply.err) && Truthy(reply.user))
      && (r.Success? ==> r.user == reply.user && r.info == reply.info)
      && (r.Fail? ==> reply.Done? && r.info == reply.info)
      && (reply.Done? && !Truthy(reply.err) && !Truthy(reply.user) ==> r == Fail(reply.info))
      && (reply.Throws? ==> r == Error(reply.ex))
      && (reply.Done? && Truthy(reply.err) ==> r == Error(reply.err))
  {
    match cb.run(Arguments(Truthy(passReq), cb.arity, req, state))
    case Throws(ex) => Error(ex)
    case Done(err, user, info) => Verified(err, user, info)
  }
}
