/** The load/clean chain of store mode (lib/strategy.js:93-128): the step list
    is built load first, clean second, and consumed by `pop()`, so the last
    step built runs first. The flowstate middleware behind each step is not
    part of this model: what a step does to the request is a parameter. */
module Chain {
  import opened Js
  import opened Passport
  import opened StoreConfiguration

  /** A step of the chain, by the middleware that built it and its arguments.
      A load step is only ever built from the store (see `BuildChain`). */
  datatype Step =
    | Load(store: JsValue)
    | Clean(store: JsValue, clean: JsValue)

  /** What a step does with its two continuations `(req, res, exec)`: call
      `exec()`, possibly after attaching `req.state`; call `exec(err)`; or
      call the abort continuation `res`. Which one is up to the middleware.
      A step is assumed to write no other part of the request and never to
      throw (see README). */
  datatype Effect =
    | Proceed(attach: Option<JsValue>)
    | ProceedError(err: JsValue)
    | Abort

  /** How the chain ends: with an outcome, or with every step run. */
  datatype ChainResult = Halted(outcome: Outcome) | Exhausted(req: Request)

  /** The result of one step: stop with an outcome or go on with the request. */
  datatype Progress = Stop(outcome: Outcome) | Go(req: Request)

  /** The request after a step: the attached state, if any, replaces `req.state`. */
  function Attach(req: Request, attach: Option<JsValue>): (r: Request)
    ensures r.pending == req.pending
    ensures attach.None? ==> r == req
    ensures attach.Some? ==> r.state == attach.value
  {
    match attach
    case None => req
    case Some(v) => req.(state := v)
  }

  /** One step's effect as `exec` sees it (lib/strategy.js:111-112, 124):
      a truthy error passed to `exec` ends in `error(err)`, a falsy one is no
      error at all, and the abort continuation ends in `error()` whatever it
      was called with. */
  function Advance(e: Effect, req: Request): (p: Progress)
    ensures p.Stop? ==> p.outcome.Error?
    ensures p.Stop? ==> p.outcome.cause == Undefined || Truthy(p.outcome.cause)
    ensures p.Stop? <==> e.Abort? || (e.ProceedError? && Truthy(e.err))
    ensures e.Abort? ==> p == Stop(Error(Undefined))
    ensures e.ProceedError? && Truthy(e.err) ==> p == Stop(Error(e.err))
    ensures e.ProceedError? && !Truthy(e.err) ==> p == Go(req)
    ensures e.Proceed? ==> p == Go(Attach(req, e.attach))
    ensures p.Go? ==> p.req.pending == req.pending
  {
    match e
    case Proceed(attach) => Go(Attach(req, attach))
    case ProceedError(err) => if Truthy(err) then Stop(Error(err)) else Go(req)
    case Abort => Stop(Error(Undefined))
  }

  /** The step list built from a configuration (lib/strategy.js:94-109). The
      load step never receives the name or handle lookup: line 100 tests
      `loadOpts.length`, which an object literal does not have. */
  function BuildChain(c: StoreConfig): (stack: seq<Step>)
    ensures 1 <= |stack| <= 2
    ensures stack[0] == Load(Read(c.store))
    ensures |stack| == 2 <==> Truthy(Read(c.clean))
    ensures |stack| == 2 ==> stack[1] == Clean(Read(c.store), Read(c.clean))
  {
    var load := Load(Read(c.store));
    if Truthy(Read(c.clean)) then [load, Clean(Read(c.store), Read(c.clean))] else [load]
  }

  /** `exec` (lib/strategy.js:111-126): pop the last step, run it, and go on
      with the rest until a step stops the chain or none is left. */
  function Exec(stack: seq<Step>, req: Request, behave: (Step, Request) -> Effect): (r: ChainResult)
    ensures r.Halted? ==> r.outcome.Error?
    ensures r.Halted? ==> r.outcome.cause == Undefined || Truthy(r.outcome.cause)
    ensures r.Exhausted? ==> r.req.pending == req.pending
    decreases |stack|
  {
    if |stack| == 0 then Exhausted(req)
    else
      match Advance(behave(stack[|stack| - 1], req), req)
      case Stop(o) => Halted(o)
      case Go(next) => Exec(stack[..|stack| - 1], next, behave)
  }

  /** Reference semantics: run the steps front to back. */
  function RunInOrder(steps: seq<Step>, req: Request, behave: (Step, Request) -> Effect): ChainResult
    decreases |steps|
  {
    if |steps| == 0 then Exhausted(req)
    else
      match Advance(behave(steps[0], req), req)
      case Stop(o) => Halted(o)
      case Go(next) => RunInOrder(steps[1..], next, behave)
  }

  /** The steps in reverse order. */
  function Reverse(s: seq<Step>): (r: seq<Step>)
    ensures |r| == |s|
    ensures forall i :: 0 <= i < |s| ==> r[i] == s[|s| - 1 - i]
    decreases |s|
  {
    if |s| == 0 then [] else [s[|s| - 1]] + Reverse(s[..|s| - 1])
  }

  /** Consuming the list by `pop()` runs it back to front. */
  lemma {:induction false} ExecRunsReversed(stack: seq<Step>, req: Request, behave: (Step, Request) -> Effect)
    ensures Exec(stack, req, behave) == RunInOrder(Reverse(stack), req, behave)
    decreases |stack|
  {
    if |stack| > 0 {
      var rev := Reverse(stack);
      var rest := stack[..|stack| - 1];
      assert rev[0] == stack[|stack| - 1];
      assert rev[1..] == Reverse(rest);
      match Advance(behave(stack[|stack| - 1], req), req)
      case Stop(o) =>
      case Go(next) =>
        ExecRunsReversed(rest, next, behave);
    }
  }

  /** When a clean step is configured it runs before the load step. */
  lemma CleanRunsBeforeLoad(c: StoreConfig, req: Request, behave: (Step, Request) -> Effect)
    requires Truthy(Read(c.clean))
    ensures Exec(BuildChain(c), req, behave)
         == RunInOrder([Clean(Read(c.store), Read(c.clean)), Load(Read(c.store))], req, behave)
  {
    var stack := BuildChain(c);
    ExecRunsReversed(stack, req, behave);
    assert Reverse(stack) == [stack[1], stack[0]];
  }

  /** Running `pre + post` runs `post` first; if `post` stops the chain, no
      step of `pre` is ever consulted. */
  lemma {:induction false} ExecSplit(pre: seq<Step>, post: seq<Step>, req: Request, behave: (Step, Request) -> Effect)
    ensures Exec(pre + post, req, behave) ==
      match Exec(post, req, behave)
      case Halted(o) => Halted(o)
      case Exhausted(next) => Exec(pre, next, behave)
    decreases |post|
  {
    if |post| == 0 {
      assert pre + post == pre;
    } else {
      var whole := pre + post;
      assert whole[|whole| - 1] == post[|post| - 1];
      assert whole[..|whole| - 1] == pre + post[..|post| - 1];
      match Advance(behave(post[|post| - 1], req), req)
      case Stop(o) =>
      case Go(next) =>
        ExecSplit(pre, post[..|post| - 1], next, behave);
    }
  }

  /** A chain in which every step proceeds without attaching anything ends
      with the request it started with. */
  lemma {:induction false} PassThroughChain(stack: seq<Step>, req: Request, behave: (Step, Request) -> Effect)
    requires forall i :: 0 <= i < |stack| ==> behave(stack[i], req) == Proceed(None)
    ensures Exec(stack, req, behave) == Exhausted(req)
    decreases |stack|
  {
    if |stack| > 0 {
      assert behave(stack[|stack| - 1], req) == Proceed(None);
      PassThroughChain(stack[..|stack| - 1], req, behave);
    }
  }
}
