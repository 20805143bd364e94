/** The store configuration (`this.flowstate`) and the merge that folds the
    recognised option keys into it (`_configureStore`, lib/strategy.js:6-23). */
module StoreConfiguration {
  import opened Js

  /** The option keys the strategy recognises, at construction and on every
      `authenticate` call. An absent key is `Undefined`. */
  datatype Options = Options(
    flowstate: JsValue,
    store: JsValue,
    get: JsValue,
    clean: JsValue,
    name: JsValue,
    strict: JsValue,
    passReqToCallback: JsValue)

  /** The empty options object `{}`. */
  const NoOptions := Options(Undefined, Undefined, Undefined, Undefined, Undefined, Undefined, Undefined)

  /** `{flowstate: true}`: asks for store mode and sets nothing else. */
  const FlowstateOnly := NoOptions.(flowstate := Bool(true))

  /** The store configuration object; `None` marks a key the object does not have. */
  datatype StoreConfig = StoreConfig(
    store: Option<JsValue>,
    get: Option<JsValue>,
    clean: Option<JsValue>,
    name: Option<JsValue>,
    strict: Option<JsValue>)

  /** The empty object `{}`. */
  const EmptyConfig := StoreConfig(None, None, None, None, None)

  /** A key the merge may hold: absent, or holding a truthy value. */
  predicate TruthyOrAbsent(key: Option<JsValue>) {
    key.Some? ==> Truthy(key.value)
  }

  /** The shape every merged configuration has: only truthy values are ever
      stored, and strict mode is never on without an expected name. */
  predicate WellFormed(c: StoreConfig) {
    && TruthyOrAbsent(c.store)
    && TruthyOrAbsent(c.get)
    && TruthyOrAbsent(c.clean)
    && TruthyOrAbsent(c.name)
    && TruthyOrAbsent(c.strict)
    && (c.strict.Some? ==> c.name.Some?)
  }

  /** `WellFormed` lifted to the strategy's possibly missing configuration. */
  predicate Coupled(c: Option<StoreConfig>) {
    c.Some? ==> WellFormed(c.value)
  }

  /** Whether state resolution runs in strict mode (`self.flowstate.strict`). */
  predicate StrictMode(c: StoreConfig) {
    Truthy(Read(c.strict))
  }

  /** `if (options[k]) { config[k] = options[k]; }` for one key. */
  function KeepIfTruthy(v: JsValue): (r: Option<JsValue>)
    ensures r.Some? <==> Truthy(v)
    ensures r.Some? ==> r.value == v
  {
    if Truthy(v) then Some(v) else None
  }

  /** The fresh object built from one options object (lib/strategy.js:10-19).
      `strict` is copied only when the SAME options also carry a truthy
      `name`: line 17 tests the fresh object, not the merged one. */
  function Recognised(o: Options): (c: StoreConfig)
    ensures WellFormed(c)
    ensures && Overwritten(c.store, o.store, None)
            && Overwritten(c.get, o.get, None)
            && Overwritten(c.clean, o.clean, None)
            && Overwritten(c.name, o.name, None)
    ensures c.strict.Some? <==> Truthy(o.strict) && Truthy(o.name)
    ensures c.strict.Some? ==> c.strict.value == o.strict
  {
    var c := StoreConfig(KeepIfTruthy(o.store), KeepIfTruthy(o.get), KeepIfTruthy(o.clean), KeepIfTruthy(o.name), None);
    if Truthy(o.strict) && c.name.Some? then c.(strict := Some(o.strict)) else c
  }

  /** One key of `Object.assign(target, source)`: a key the source has wins. */
  function AssignKey(target: Option<JsValue>, source: Option<JsValue>): Option<JsValue> {
    if source.Some? then source else target
  }

  /** `Object.assign(target, source)` on store configurations. */
  function Assign(target: StoreConfig, source: StoreConfig): StoreConfig {
    StoreConfig(
      AssignKey(target.store, source.store),
      AssignKey(target.get, source.get),
      AssignKey(target.clean, source.clean),
      AssignKey(target.name, source.name),
      AssignKey(target.strict, source.strict))
  }

  /** The configuration a merge starts from: `this.flowstate || {}`. */
  function Base(prior: Option<StoreConfig>): StoreConfig {
    prior.GetOr(EmptyConfig)
  }

  /** A key after a merge: overwritten when the option is truthy, kept otherwise. */
  predicate Overwritten(after: Option<JsValue>, option: JsValue, before: Option<JsValue>) {
    && (Truthy(option) ==> after == Some(option))
    && (!Truthy(option) ==> after == before)
  }

  /** `_configureStore` (lib/strategy.js:6-23): without a truthy `flowstate`
      the configuration, present or not, is left alone; otherwise each of
      `store`, `get`, `clean`, `name` is overwritten exactly when truthy in
      the options, and `strict` exactly when the options carry truthy
      `strict` and `name` together. */
  function Merge(prior: Option<StoreConfig>, o: Options): (r: Option<StoreConfig>)
    ensures !Truthy(o.flowstate) ==> r == prior
    ensures Truthy(o.flowstate) ==> r.Some?
    ensures r.Some? && Truthy(o.flowstate) ==>
      && Overwritten(r.value.store, o.store, Base(prior).store)
      && Overwritten(r.value.get, o.get, Base(prior).get)
      && Overwritten(r.value.clean, o.clean, Base(prior).clean)
      && Overwritten(r.value.name, o.name, Base(prior).name)
    ensures r.Some? && Truthy(o.flowstate) ==>
      && (Truthy(o.strict) && Truthy(o.name) ==> r.value.strict == Some(o.strict))
      && (!(Truthy(o.strict) && Truthy(o.name)) ==> r.value.strict == Base(prior).strict)
    ensures Coupled(prior) ==> Coupled(r)
  {
    if !Truthy(o.flowstate) then prior
    else Some(Assign(Base(prior), Recognised(o)))
  }

  /** Merging the same options twice is merging them once. */
  lemma MergeIdempotent(prior: Option<StoreConfig>, o: Options)
    ensures Merge(Merge(prior, o), o) == Merge(prior, o)
  {
  }

  /** Re-merging with `{flowstate: true}` alone changes nothing in an existing
      configuration, and turns a missing one into the empty object. */
  lemma FlowstateOnlyKeepsConfig(prior: Option<StoreConfig>)
    ensures prior.Some? ==> Merge(prior, FlowstateOnly) == prior
    ensures prior.None? ==> Merge(prior, FlowstateOnly) == Some(EmptyConfig)
  {
  }

  /** An expected name merged on an earlier call does not enable strict mode:
      a later `{flowstate: true, strict: true}` leaves `strict` unset. */
  lemma StrictNeedsNameInSameOptions(prior: StoreConfig)
    requires WellFormed(prior) && prior.name.Some? && prior.strict.None?
    ensures Merge(Some(prior), FlowstateOnly.(strict := Bool(true))) == Some(prior)
  {
  }

  /** The configuration after a sequence of merges, in order. */
  function MergeAll(prior: Option<StoreConfig>, os: seq<Options>): Option<StoreConfig>
    decreases |os|
  {
    if |os| == 0 then prior else MergeAll(Merge(prior, os[0]), os[1..])
  }

  /** For every sequence of merges from a well-formed start (in particular
      from no configuration), strict mode implies an expected name. */
  lemma {:induction false} MergeAllKeepsStrictCoupled(prior: Option<StoreConfig>, os: seq<Options>)
    requires Coupled(prior)
    ensures Coupled(MergeAll(prior, os))
    ensures var r := MergeAll(prior, os); r.Some? && StrictMode(r.value) ==> Truthy(Read(r.value.name))
    decreases |os|
  {
    if |os| > 0 {
      MergeAllKeepsStrictCoupled(Merge(prior, os[0]), os[1..]);
    }
  }

  /** Once set, `strict` is never cleared by later merges. */
  lemma {:induction false} StrictNeverCleared(prior: Option<StoreConfig>, os: seq<Options>)
    requires prior.Some? && prior.value.strict.Some?
    ensures MergeAll(prior, os).Some? && MergeAll(prior, os).value.strict.Some?
    decreases |os|
  {
    if |os| > 0 {
      StrictNeverCleared(Merge(prior, os[0]), os[1..]);
    }
  }

  /** Options that never ask for store mode never change the configuration. */
  lemma {:induction false} MergeAllWithoutFlowstate(prior: Option<StoreConfig>, os: seq<Options>)
    requires forall i :: 0 <= i < |os| ==> !Truthy(os[i].flowstate)
    ensures MergeAll(prior, os) == prior
    decreases |os|
  {
    if |os| > 0 {
      assert !Truthy(os[0].flowstate);
      MergeAllWithoutFlowstate(prior, os[1..]);
    }
  }
}
