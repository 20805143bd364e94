# passport-state, modelled in Dafny

`StateStrategy` is a Passport authentication strategy. It authenticates a
request by an application *state* object instead of credentials. The state is
either already attached to the request (direct mode) or loaded from a flowstate
store by a short chain of middleware steps (store mode). The strategy then
passes the state's `user` to a user-supplied verify callback. It maps the
callback's answer to one of Passport's three outcomes: `error`, `fail`,
`success`.

The model covers the whole of `lib/strategy.js`:

- `js.dfy` (`Js`): JavaScript values, truthiness, `a || b`, and property reads.
- `passport.dfy` (`Passport`): the request slots `req.state` and `req._state`, and the three outcomes.
- `store_config.dfy` (`StoreConfiguration`): the options, the store configuration
  (`this.flowstate`), and `_configureStore` as `Merge`. It also holds lemmas over
  sequences of merges.
- `chain.dfy` (`Chain`): the load/clean step list, and `exec` as a fold that
  pops from the end of the list. Each step's behaviour is a parameter
  `behave: (Step, Request) -> Effect`. A step can proceed (optionally
  attaching `req.state`), proceed with an error, or call the abort
  continuation.
- `verification.dfy` (`Dispatch`): the four-way argument table, the `done`
  mapping, and the `try`/`catch` around the callback. The callback is a
  `Callback(arity, run)`: its declared `Function.length` and its reply to an
  argument list.
- `strategy.dfy` (`StateStrategy`): construction, the direct/store split,
  strict and non-strict state selection, and `authenticate`.

## Source reading

The source has defects that stop it from loading or running. The model
follows the evident intent for each of these:

- Line 3 ends the `var` declaration with `;`. This makes line 4 a syntax error.
  The model assumes `util` is declared.
- Lines 36 and 47 call `_.configureStore`. Nothing named `_` exists, so the
  call is read as `_configureStore`. The model's `Merge` is that function.
- Lines 104 and 108 call `stack.append`, which JavaScript arrays lack. The
  call is read as `push`. `BuildChain` builds the list load first, clean
  second.

Lines 61-62 read the callback and flag under names the constructor never
sets. That defect is modelled both as written and corrected, under
"## Findings".

Four behaviours of the code differ from what its comments or its evident
purpose suggest. The model follows the code:

- Line 17 tests `config['name']`. That is the name in the *current* options,
  not the merged one. So an earlier name does not let a later `strict` in
  (`StrictNeedsNameInSameOptions`).
- Line 100 tests `loadOpts.length`, which is always `undefined` on an object
  literal. The load step is therefore always built without the name and
  handle lookup (`BuildChain`).
- Line 124's abort continuation ignores its arguments. A step that aborts
  with a cause such as `"timeout"` yields `error()` with no cause
  (`Chain.Advance`, `FirstStepStops`).
- The list is consumed by `pop()`, so a configured clean step runs *before*
  the load step (`CleanRunsBeforeLoad`).

## Model

| member | source | states |
|---|---|---|
| Js.UserOf | lib/strategy.js:64-72 | reading `state.user` gives the object's `user` property, and `undefined` for a state that is not an object |
| StoreConfiguration.KeepIfTruthy | lib/strategy.js:12-14 | a key is copied exactly when its option value is truthy, and then holds that value |
| StoreConfiguration.Recognised | lib/strategy.js:10-19 | the fresh object holds each of `store`, `get`, `clean`, `name` exactly when truthy in the options, with that value; `strict` is in it, with the option's value, exactly when the same options carry truthy `strict` and `name` |
| StoreConfiguration.Merge | lib/strategy.js:6-23 | without truthy `flowstate` the configuration, even a missing one, is unchanged; otherwise `store`/`get`/`clean`/`name` are overwritten exactly when truthy and kept otherwise; `strict` changes only with truthy `strict` and `name` together; well-formedness is preserved |
| StoreConfiguration.MergeIdempotent | lib/strategy.js:12-21 | merging the same options twice equals merging them once |
| StoreConfiguration.FlowstateOnlyKeepsConfig | lib/strategy.js:8-21 | re-merging `{flowstate: true}` leaves an existing configuration identical and turns a missing one into `{}` |
| StoreConfiguration.StrictNeedsNameInSameOptions | lib/strategy.js:16-19 | a name merged on an earlier call does not let a later `strict` in |
| StoreConfiguration.MergeAllKeepsStrictCoupled | lib/strategy.js:16-21 | after any sequence of merges from no configuration or a well-formed one, strict mode implies an expected name |
| StoreConfiguration.StrictNeverCleared | lib/strategy.js:17-21 | once set, `strict` stays set through any later merges |
| StoreConfiguration.MergeAllWithoutFlowstate | lib/strategy.js:8 | a sequence of options none of which asks for store mode leaves the configuration unchanged |
| Chain.Attach | lib/strategy.js:116-118 | the state a step attaches is what `req.state` reads afterwards; under the assumed step effects (see Left out) the pending slot is untouched |
| Chain.Advance | lib/strategy.js:111-126 | a step stops the chain exactly when it aborts or passes a truthy error; abort gives `error()` with no cause, a truthy `exec(err)` gives `error(err)`; a falsy error goes on with the request unchanged, and a proceeding step goes on with its attached state in `req.state` |
| Chain.BuildChain | lib/strategy.js:94-109 | the list is the load step (without options), then a clean step exactly when `clean` is truthy, both bound to the store |
| Chain.Exec | lib/strategy.js:111-128 | the chain ends only in an error (with no cause or a truthy one) or with every step run; under the assumed step effects the pending slot is unchanged |
| Chain.ExecRunsReversed | lib/strategy.js:93-126 | popping the list runs it back to front: it equals running the reversed list in order |
| Chain.CleanRunsBeforeLoad | lib/strategy.js:104-114 | with `clean` configured, the clean step runs before the load step |
| Chain.ExecSplit | lib/strategy.js:111-126 | the later part of the list runs first; when it stops the chain, no earlier step is consulted |
| Chain.PassThroughChain | lib/strategy.js:111-126 | steps that all proceed without attaching leave the request as it was |
| Dispatch.Arguments | lib/strategy.js:61-74 | the four-way table: request-passing with arity 4, with other arity, without and arity 3, without and other arity |
| Dispatch.ArgumentsFitArity | lib/strategy.js:61-74 | for each arity the table expects, the callback receives exactly that many arguments, `done` last, the request first exactly when passed, then the state's user, and the state just before `done` in the longer shape |
| Dispatch.Verified | lib/strategy.js:53-58 | `done` gives error exactly for a truthy error, fail exactly for a falsy error and falsy user (carrying info), and otherwise success with the user and info |
| Dispatch.Invoke | lib/strategy.js:60-77 | success exactly when the callback completes with a falsy error and a truthy user; a completion with a falsy error and a falsy user gives `fail(info)`; a truthy error gives `error(err)`; a synchronous throw becomes `error(ex)` |
| StateStrategy.Construct | lib/strategy.js:25-37 | the strategy is named `state`, stores the given callback and keeps the flag, and has a store configuration exactly when `flowstate` is truthy, holding only the recognised keys and well-formed |
| StateStrategy.VerificationAsWritten | lib/strategy.js:60-77 | as written, every verification ends in `error` with the thrown TypeError |
| StateStrategy.Verification | lib/strategy.js:51-79 | reading the callback and flag stored by the constructor, verification is the dispatch of `Dispatch.Invoke` |
| StateStrategy.VerifyPropertyCounterexample | lib/strategy.js:61-72 | a callback that accepts the user errors as written but authenticates when `_verify` is read |
| StateStrategy.SelectState | lib/strategy.js:115-121 | strict mode takes only `req.state`; otherwise a truthy primary wins and the result is truthy exactly when either slot is |
| StateStrategy.Plan | lib/strategy.js:83-128 | only a truthy state is verified; a halt is an error or an empty fail; direct mode verifies exactly the attached state; a missing store halts with `error()`; strict mode verifies only the primary slot; in store mode a halted chain's outcome is reported and, after a chain that runs out, a truthy `req.state` is verified |
| StateStrategy.Authenticate | lib/strategy.js:43-129 | the configuration the call runs with is the strategy's with the call's options merged in by `_configureStore` (line 47), so `Merge`'s guarantees hold of it; it is the one left on the object `authenticate` runs on; halts report their outcome; success only comes from the callback and carries a truthy user |
| StateStrategy.CallOptionsSelectMode | lib/strategy.js:44-47 | a call without truthy `flowstate` keeps the strategy's configuration; on a strategy built without one, a call with truthy `flowstate` runs in store mode with exactly that call's recognised keys, so a load step that aborts reports `error()` |
| StateStrategy.DirectMode | lib/strategy.js:83-87 | in direct mode an attached state is verified exactly as attached, none fails with no info, and no step is consulted |
| StateStrategy.MissingStoreIsError | lib/strategy.js:91 | store mode without a store reports `error()` before any step or verification |
| StateStrategy.ChainHaltSkipsVerification | lib/strategy.js:111-113 | a chain that stops ends the attempt with that error and verification is never reached |
| StateStrategy.FirstStepStops | lib/strategy.js:104-126 | when the first step run (clean if configured, else load) aborts, the outcome is `error()`; when it passes a truthy error, `error(err)` |
| StateStrategy.PrimaryStateIsVerified | lib/strategy.js:115-121 | after a chain that runs out, a truthy `req.state` is the state verified, in strict mode and outside it |
| StateStrategy.LoadedStateIsVerified | lib/strategy.js:96-121 | with no clean step, a load step that attaches a truthy state and proceeds has that state verified against the request carrying it |
| StateStrategy.StrictIgnoresPending | lib/strategy.js:115-120 | in strict mode a missing primary state fails with no info, whatever the pending slot holds |
| StateStrategy.NonStrictFallsBackToPending | lib/strategy.js:115-121 | outside strict mode a missing primary state falls back to the pending state, which is then verified |
| StateStrategy.NoStateFails | lib/strategy.js:115-120 | with neither slot filled after the chain, the attempt fails with no info |
| StateStrategy.DirectModeScenario | lib/strategy.js:53-87 | with an arity-2 callback that accepts the user, an attached state authenticates its user and no attached state fails with no info |

## Findings

| source | as written | input that shows it | evidently intended | confidence | as-written member | corrected member |
|---|---|---|---|---|---|---|
| lib/strategy.js:61-62 | reads `self.verify.length` and `self.passReqToCallback`, but the constructor sets only `_verify` and `_passReqToCallback` (lines 33-34); the read of `.length` on `undefined` throws, and the `catch` reports `error` | direct mode, `req.state = {user: u}`, callback `(user, done) => done(null, user)` | read `self._verify` and `self._passReqToCallback` | not executed | StateStrategy.VerificationAsWritten | StateStrategy.Verification |

`Authenticate` uses the corrected `Verification`.

## Left out

- The flowstate `load` and `clean` middleware (lines 101-102, 107) are not modelled. Each step is an abstract effect on the request, chosen by the `behave` parameter.
- Chain.Exec: a step is assumed to write only `req.state`, the slot line 117 reads. The middleware receives the whole request at line 125 and could also write `req._state`. The pending-slot clauses of `Chain.Attach`, `Chain.Exec` and `StateStrategy.NonStrictFallsBackToPending` rest on this assumption.
- A step that throws synchronously is not modelled. Line 125 is outside any `try`, so such a throw would leave `authenticate` with no outcome reported.
- The `passport-strategy` base class and `util.inherits` (lines 31, 40) are left out. `error`, `fail` and `success` become the `Outcome` datatype.
- Asynchronous timing is not modelled. The chain is a sequential fold, because within one call the source runs one step at a time.
- Authenticate: the configuration is a value fixed for the whole call. In the source, line 21 mutates one shared object in place, and line 116 reads `self.flowstate.strict` only after the asynchronous chain. A concurrent `authenticate` that merges `strict` in between can turn a non-strict resolution into a strict one; the model does not capture this cross-call interleaving.
- Authenticate: line 21 assigns to whatever object `authenticate` is called on. If the host framework calls it on an object derived from the strategy, a configuration first created by `authenticate` stays on that object and not on the strategy. The host framework is not part of this model, so the model returns the merged configuration and does not say which object keeps it.
- `Function.length` is not inspected. The callback's arity is an integer field of `Callback`.
- A step that calls neither continuation, or both, is not modelled. Each step yields exactly one `Effect`.
- A callback that never calls `done`, or calls it twice, is not modelled. Each call yields exactly one `Reply`.
- A throw after an asynchronous `done` escapes the `try` and is not modelled. If `done` runs synchronously and the callback, or `success`/`fail` inside `verified`, then throws, the throw is still inside the `try` of lines 60-74. Line 76 then reports a second outcome, `error(ex)`. This double report is not modelled either: each call yields exactly one `Reply`.
- A missing verify callback at construction is not modelled. `Construct` always receives a `Callback`.
- Request properties other than `state` and `_state` are not modelled, because the strategy reads no others.
- JavaScript numbers are modelled as integers, with `NaN` as a separate value. Fractions and `-0` are left out: the strategy only tests values for truthiness.
- The load options built on lines 96-98 are discarded by the code (see "Source reading"), so a load step carries only the store.
