/** The strategy itself (lib/strategy.js:25-129): construction, and
    `authenticate`, which merges per-call options into the store
    configuration, resolves the state to verify in direct or store mode, and
    hands it to the verify callback. */
module StateStrategy {
  import opened Js
  import opened Passport
  import opened StoreConfiguration
  import opened Chain
  import opened Dispatch

  /** The name the strategy registers under (lib/strategy.js:32). */
  const StrategyName := "state"

  /** The key under which the constructor stores the callback (lib/strategy.js:33). */
  const VerifyKey := "_verify"

  /** Stands for the `TypeError` the runtime raises when reading a property of `undefined`. */
  const TypeErrorObject := Obj(0, Undefined)

  /** A strategy object: its name, the verify callback, the request-passing
      flag and the store configuration (`this.flowstate`), absent in direct mode. */
  datatype Strategy = Strategy(
    name: string,
    verify: Callback,
    passReqToCallback: JsValue,
    flowstate: Option<StoreConfig>)

  /** `new StateStrategy(options, verify)` (lib/strategy.js:25-37); `None`
      is the `new StateStrategy(verify)` form, which takes `{}` as options. */
  function Construct(options: Option<Options>, verify: Callback): (s: Strategy)
    ensures s.name == StrategyName
    ensures s.verify == verify
    ensures s.passReqToCallback == options.GetOr(NoOptions).passReqToCallback
    ensures s.flowstate.Some? <==> Truthy(options.GetOr(NoOptions).flowstate)
    ensures s.flowstate.Some? ==> s.flowstate.value == Recognised(options.GetOr(NoOptions))
    ensures Coupled(s.flowstate)
  {
    var o := options.GetOr(NoOptions);
    Strategy(StrategyName, verify, o.passReqToCallback, Merge(None, o))
  }

  /** The callback as read back from the strategy object under `key`: only
      `_verify` holds it. */
  function CallbackAt(s: Strategy, key: string): Option<Callback> {
    if key == VerifyKey then Some(s.verify) else None
  }

  /** `verification(state)` reading the callback under `key`. Reading
      `.length` of a missing callback throws inside the `try`, and the
      `catch` of lines 75-77 turns the throw into `error(ex)`. */
  function VerificationReading(s: Strategy, key: string, req: Request, state: JsValue): Outcome
    requires state != Undefined && state != Null
  {
    match CallbackAt(s, key)
    case None => Error(TypeErrorObject)
    case Some(cb) => Invoke(cb, s.passReqToCallback, req, state)
  }

  /** `verification` as lines 61-62 write it: they read `self.verify` and
      `self.passReqToCallback`, which the constructor never sets, so every
      verification ends in `error` and no user is ever authenticated. */
  function VerificationAsWritten(s: Strategy, req: Request, state: JsValue): (r: Outcome)
    requires state != Undefined && state != Null
    ensures r == Error(TypeErrorObject)
  {
    VerificationReading(s, "verify", req, state)
  }

  /** `verification` reading the callback and flag the constructor stored
      (lines 33-34), as evidently intended. */
  function Verification(s: Strategy, req: Request, state: JsValue): (r: Outcome)
    requires state != Undefined && state != Null
    ensures r == Invoke(s.verify, s.passReqToCallback, req, state)
  {
    VerificationReading(s, VerifyKey, req, state)
  }

  /** A callback that accepts the state's user: it completes with `done(null, user)`. */
  function AcceptUser(args: seq<Arg>): Reply {
    if |args| > 0 && args[0].ValueArg? then Done(Null, args[0].v, Undefined) else Done(Null, Undefined, Undefined)
  }

  /** The callback reads of lines 61-62 make every verification fail with an
      error, even for a callback that accepts the user; reading `_verify`
      authenticates that user. */
  lemma VerifyPropertyCounterexample()
    ensures var s := Construct(None, Callback(2, AcceptUser));
      var user := Obj(1, Undefined);
      var state := Obj(2, user);
      var req := Request(state, Undefined);
      && VerificationAsWritten(s, req, state) == Error(TypeErrorObject)
      && Verification(s, req, state) == Success(user, Undefined)
  {
    var state := Obj(2, Obj(1, Undefined));
    assert Arguments(false, 2, Request(state, Undefined), state) == [ValueArg(Obj(1, Undefined)), DoneArg];
  }

  /** State resolution once the chain is exhausted (lib/strategy.js:116-118):
      strict mode takes `req.state` only; otherwise `req.state || req._state`. */
  function SelectState(c: StoreConfig, req: Request): (state: JsValue)
    ensures StrictMode(c) ==> state == req.state
    ensures state == req.state || state == req.pending
    ensures !StrictMode(c) ==> (Truthy(state) <==> Truthy(req.state) || Truthy(req.pending))
    ensures Truthy(req.state) ==> state == req.state
  {
    if StrictMode(c) then req.state else Or(req.state, req.pending)
  }

  /** What `authenticate` decides before any verification: stop with an
      outcome, or verify the given state against the (possibly updated) request. */
  datatype Decision = Halt(outcome: Outcome) | VerifyWith(state: JsValue, req: Request)

  /** The direct and store branches of `authenticate` (lib/strategy.js:83-128)
      up to the call of `verification`. */
  function Plan(flowstate: Option<StoreConfig>, req: Request, behave: (Step, Request) -> Effect): (d: Decision)
    ensures d.VerifyWith? ==> Truthy(d.state) && d.req.pending == req.pending
    ensures d.VerifyWith? ==> d.state == d.req.state || d.state == d.req.pending
    ensures d.Halt? ==> d.outcome.Error? || d.outcome == Fail(Undefined)
    ensures flowstate.None? ==> (d.VerifyWith? <==> Truthy(req.state))
    ensures flowstate.None? && d.VerifyWith? ==> d.state == req.state && d.req == req
    ensures flowstate.Some? && !Truthy(Read(flowstate.value.store)) ==> d == Halt(Error(Undefined))
    ensures flowstate.Some? && StrictMode(flowstate.value) && d.VerifyWith? ==> d.state == d.req.state
    ensures flowstate.Some? && Truthy(Read(flowstate.value.store)) ==>
      var r := Exec(BuildChain(flowstate.value), req, behave);
      && (r.Halted? ==> d == Halt(r.outcome))
      && (r.Exhausted? && Truthy(r.req.state) ==> d == VerifyWith(r.req.state, r.req))
  {
    match flowstate
    case None =>
      if Truthy(req.state) then VerifyWith(req.state, req) else Halt(Fail(Undefined))
    case Some(c) =>
      if !Truthy(Read(c.store)) then Halt(Error(Undefined))
      else
        match Exec(BuildChain(c), req, behave)
        case Halted(o) => Halt(o)
        case Exhausted(next) =>
          var state := SelectState(c, next);
          if Truthy(state) then VerifyWith(state, next) else Halt(Fail(Undefined))
  }

  /** The result of one `authenticate` call: the store configuration it
      leaves on the strategy and the outcome it reports. */
  datatype Attempt = Attempt(flowstate: Option<StoreConfig>, outcome: Outcome)

  /** The store configuration in force for a call: the strategy's, with the
      call's options merged in (lib/strategy.js:44-47). */
  function Effective(s: Strategy, options: Option<Options>): Option<StoreConfig> {
    Merge(s.flowstate, options.GetOr(NoOptions))
  }

  /** `authenticate(req, options)` (lib/strategy.js:43-129). The merged
      configuration is what line 21 leaves on the object `authenticate` runs
      on, and it is fixed for the rest of the call; success is only ever
      reported by the verify callback. */
  function Authenticate(s: Strategy, req: Request, options: Option<Options>, behave: (Step, Request) -> Effect): (a: Attempt)
    ensures a.flowstate == Merge(s.flowstate, options.GetOr(NoOptions))
    ensures Coupled(s.flowstate) ==> Coupled(a.flowstate)
    ensures var d := Plan(a.flowstate, req, behave);
      && (d.Halt? ==> a.outcome == d.outcome)
      && (d.VerifyWith? ==> a.outcome == Invoke(s.verify, s.passReqToCallback, d.req, d.state))
    ensures a.outcome.Success? ==> Truthy(a.outcome.user)
  {
    var flowstate := Effective(s, options);
    var outcome :=
      match Plan(flowstate, req, behave)
      case Halt(o) => o
      case VerifyWith(state, next) => Verification(s, next, state);
    Attempt(flowstate, outcome)
  }

  /** The call's own options decide the mode (line 47): a strategy built
      without a store configuration runs a call carrying truthy `flowstate`
      in store mode, with exactly the recognised keys of that call, so a
      step that aborts reports `error()` where direct mode would have failed
      or verified; a call without truthy `flowstate` keeps the strategy's
      configuration. */
  lemma CallOptionsSelectMode(s: Strategy, req: Request, o: Options, behave: (Step, Request) -> Effect)
    ensures !Truthy(o.flowstate) ==> Authenticate(s, req, Some(o), behave).flowstate == s.flowstate
    ensures s.flowstate.None? && Truthy(o.flowstate) ==>
      Authenticate(s, req, Some(o), behave).flowstate == Some(Recognised(o))
    ensures (s.flowstate.None? && Truthy(o.flowstate) && Truthy(o.store) && !Truthy(o.clean)
             && behave(Load(o.store), req) == Abort) ==>
      Authenticate(s, req, Some(o), behave).outcome == Error(Undefined)
  {
  }

  /** Direct mode: an attached state is verified exactly as attached, and no
      attached state fails with no info; no chain step is consulted. */
  lemma DirectMode(s: Strategy, req: Request, options: Option<Options>, behave: (Step, Request) -> Effect, other: (Step, Request) -> Effect)
    requires Effective(s, options).None?
    ensures Truthy(req.state) ==> Authenticate(s, req, options, behave).outcome == Verification(s, req, req.state)
    ensures !Truthy(req.state) ==> Authenticate(s, req, options, behave).outcome == Fail(Undefined)
    ensures Authenticate(s, req, options, behave) == Authenticate(s, req, options, other)
  {
  }

  /** Store mode without a store is a configuration error with no cause,
      reported before any step or verification runs. */
  lemma MissingStoreIsError(s: Strategy, req: Request, options: Option<Options>, behave: (Step, Request) -> Effect)
    requires Effective(s, options).Some? && !Truthy(Read(Effective(s, options).value.store))
    ensures Plan(Effective(s, options), req, behave) == Halt(Error(Undefined))
    ensures Authenticate(s, req, options, behave).outcome == Error(Undefined)
  {
  }

  /** A chain that stops ends the attempt with that error; verification is
      never reached. */
  lemma ChainHaltSkipsVerification(s: Strategy, req: Request, options: Option<Options>, behave: (Step, Request) -> Effect)
    requires Effective(s, options).Some? && Truthy(Read(Effective(s, options).value.store))
    requires Exec(BuildChain(Effective(s, options).value), req, behave).Halted?
    ensures Plan(Effective(s, options), req, behave).Halt?
    ensures Authenticate(s, req, options, behave).outcome == Exec(BuildChain(Effective(s, options).value), req, behave).outcome
    ensures Authenticate(s, req, options, behave).outcome.Error?
  {
  }

  /** The step that runs first (the clean step when configured, else the
      load step) decides alone when it aborts or passes a truthy error: the
      abort continuation reports `error()` with no cause, whatever the step
      gave it, and `exec(err)` reports `error(err)`. */
  lemma FirstStepStops(s: Strategy, req: Request, options: Option<Options>, behave: (Step, Request) -> Effect)
    requires Effective(s, options).Some? && Truthy(Read(Effective(s, options).value.store))
    requires var stack := BuildChain(Effective(s, options).value);
      var e := behave(stack[|stack| - 1], req);
      e.Abort? || (e.ProceedError? && Truthy(e.err))
    ensures var c := Effective(s, options).value;
      var first := if Truthy(Read(c.clean)) then Clean(Read(c.store), Read(c.clean)) else Load(Read(c.store));
      var e := behave(first, req);
      && (e.Abort? ==> Authenticate(s, req, options, behave).outcome == Error(Undefined))
      && (e.ProceedError? ==> Authenticate(s, req, options, behave).outcome == Error(e.err))
  {
  }

  /** After a chain that runs out, a truthy `req.state` (whoever attached
      it) is the state verified, in strict mode and outside it. */
  lemma PrimaryStateIsVerified(s: Strategy, req: Request, options: Option<Options>, behave: (Step, Request) -> Effect)
    requires Effective(s, options).Some? && Truthy(Read(Effective(s, options).value.store))
    requires var r := Exec(BuildChain(Effective(s, options).value), req, behave);
      r.Exhausted? && Truthy(r.req.state)
    ensures var r := Exec(BuildChain(Effective(s, options).value), req, behave);
      Authenticate(s, req, options, behave).outcome == Verification(s, r.req, r.req.state)
  {
  }

  /** The main store-mode path: with no clean step, a load step that attaches
      a truthy state `v` and proceeds has `v` verified against the request
      carrying it. */
  lemma LoadedStateIsVerified(s: Strategy, req: Request, options: Option<Options>, behave: (Step, Request) -> Effect, v: JsValue)
    requires Effective(s, options).Some? && Truthy(Read(Effective(s, options).value.store))
    requires !Truthy(Read(Effective(s, options).value.clean))
    requires behave(Load(Read(Effective(s, options).value.store)), req) == Proceed(Some(v)) && Truthy(v)
    ensures Authenticate(s, req, options, behave).outcome == Verification(s, req.(state := v), v)
  {
    var c := Effective(s, options).value;
    assert BuildChain(c) == [Load(Read(c.store))];
    assert Exec(BuildChain(c), req, behave) == Exec([], req.(state := v), behave);
  }

  /** Strict mode never falls back to the pending slot: with no primary state
      after the chain the attempt fails with no info. */
  lemma StrictIgnoresPending(s: Strategy, req: Request, options: Option<Options>, behave: (Step, Request) -> Effect)
    requires Effective(s, options).Some? && Truthy(Read(Effective(s, options).value.store))
    requires StrictMode(Effective(s, options).value)
    requires var r := Exec(BuildChain(Effective(s, options).value), req, behave);
      r.Exhausted? && !Truthy(r.req.state)
    ensures Authenticate(s, req, options, behave).outcome == Fail(Undefined)
  {
  }

  /** Outside strict mode a missing primary state falls back to the pending
      slot, and the pending state is what gets verified. */
  lemma NonStrictFallsBackToPending(s: Strategy, req: Request, options: Option<Options>, behave: (Step, Request) -> Effect)
    requires Effective(s, options).Some? && Truthy(Read(Effective(s, options).value.store))
    requires !StrictMode(Effective(s, options).value)
    requires var r := Exec(BuildChain(Effective(s, options).value), req, behave);
      r.Exhausted? && !Truthy(r.req.state) && Truthy(r.req.pending)
    ensures var r := Exec(BuildChain(Effective(s, options).value), req, behave);
      && r.req.pending == req.pending
      && Authenticate(s, req, options, behave).outcome == Verification(s, r.req, req.pending)
  {
  }

  /** With neither slot filled after the chain, the attempt fails with no info. */
  lemma NoStateFails(s: Strategy, req: Request, options: Option<Options>, behave: (Step, Request) -> Effect)
    requires Effective(s, options).Some? && Truthy(Read(Effective(s, options).value.store))
    requires var r := Exec(BuildChain(Effective(s, options).value), req, behave);
      r.Exhausted? && !Truthy(r.req.state) && !Truthy(r.req.pending)
    ensures Authenticate(s, req, options, behave).outcome == Fail(Undefined)
  {
  }

  /** No step consulted in direct mode. */
  function NeverCalled(step: Step, req: Request): Effect {
    Abort
  }

  /** A direct-mode strategy with an arity-2 callback accepting the user
      authenticates the user of the attached state; without an attached
      state the attempt fails with no info. */
  lemma DirectModeScenario()
    ensures var s := Construct(None, Callback(2, AcceptUser));
      var user := Obj(1, Undefined);
      && Authenticate(s, Request(Obj(2, user), Undefined), None, NeverCalled).outcome == Success(user, Undefined)
      && Authenticate(s, Request(Undefined, Undefined), None, NeverCalled).outcome == Fail(Undefined)
  {
    var state := Obj(2, Obj(1, Undefined));
    assert Arguments(false, 2, Request(state, Undefined), state) == [ValueArg(Obj(1, Undefined)), DoneArg];
  }
}
