/**
 * The state of one named item (an Entity, or the older Entry) and what its
 * two state-changing operations, `resolve` and `addArguments`, do to it.
 * Both classes are specified by these functions.
 */
module EntityModel {
  import opened Values

  /** The fields of an entity: `id`, the payload (`entity`/`entry`), whether
      it is a definition, the bound `arguments`, and the cache (`resolved`,
      `value`). */
  datatype EntityState = EntityState(
    id: string,
    payload: Value,
    definition: bool,
    arguments: seq<Value>,
    resolved: bool,
    value: Value)

  /** One call of `resolve`: the new state, what it returns or throws, and
      the argument lists the callable was invoked with (none or one). */
  datatype Resolved = Resolved(state: EntityState, result: Result<Value>, calls: seq<seq<Value>>)

  /** A new entity: nothing bound, not resolved; the cached value is the
      payload itself for a plain value and null for a definition. */
  function Initial(id: string, payload: Value, definition: bool): (s: EntityState)
    ensures WellFormed(s) && !s.resolved && s.arguments == []
    ensures s.id == id && s.payload == payload && s.definition == definition
    ensures definition ==> s.value == Null
    ensures !definition ==> s.value == payload
  {
    EntityState(id, payload, definition, [], false, if definition then Null else payload)
  }

  /** Whether `resolve(..., forceNew)` calls the payload. */
  predicate Invokes(s: EntityState, forceNew: bool) {
    s.definition && (!s.resolved || forceNew)
  }

  /** `resolve(args, forceNew)`. The flag is set before the call, so a call
      that throws leaves `resolved` set and the previous value in place. */
  function Resolve(s: EntityState, args: seq<Value>, forceNew: bool, invoke: Invoker): (r: Resolved)
    ensures r.state.(resolved := s.resolved, value := s.value) == s
    ensures r.calls == [] || r.calls == [s.arguments + args]
    ensures r.calls != [] <==> Invokes(s, forceNew)
    ensures r.calls != [] ==> r.state.resolved
    ensures r.calls == [] ==> r.state == s && r.result == Ok(s.value)
  {
    if !Invokes(s, forceNew) then Resolved(s, Ok(s.value), [])
    else
      var call := s.arguments + args;
      match invoke(s.payload, call)
      case Returned(v) => Resolved(s.(resolved := true, value := v), Ok(v), [call])
      case Threw(e) => Resolved(s.(resolved := true), Err(CallFailure(e)), [call])
  }

  /** `addArguments(...args)`: appended for a definition, ignored otherwise. */
  function Bind(s: EntityState, args: seq<Value>): (r: EntityState)
    ensures r.(arguments := s.arguments) == s
    ensures |r.arguments| == |s.arguments| + (if s.definition then |args| else 0)
    ensures r.arguments[..|s.arguments|] == s.arguments
    ensures s.definition ==> r.arguments == s.arguments + args
    ensures !s.definition ==> r == s
  {
    if s.definition then s.(arguments := s.arguments + args) else s
  }

  /** The invariant every entity keeps: a plain value has its payload as
      its value and never binds arguments; a definition that has not been
      resolved still has a null value. */
  predicate WellFormed(s: EntityState) {
    && (!s.definition ==> s.value == s.payload && s.arguments == [] && !s.resolved)
    && (s.definition && !s.resolved ==> s.value == Null)
  }

  lemma OperationsKeepWellFormed(s: EntityState, args: seq<Value>, forceNew: bool, invoke: Invoker)
    requires WellFormed(s)
    ensures WellFormed(Bind(s, args))
    ensures WellFormed(Resolve(s, args, forceNew, invoke).state)
  {
  }

  /** A plain value resolves to its payload whatever is passed, changes
      nothing and calls nothing. */
  lemma ValueResolvesToPayload(s: EntityState, args: seq<Value>, forceNew: bool, invoke: Invoker)
    requires WellFormed(s) && !s.definition
    ensures Resolve(s, args, forceNew, invoke) == Resolved(s, Ok(s.payload), [])
  {
  }

  /** Binding arguments to a plain value leaves it as it was. */
  lemma ValueIgnoresBinding(s: EntityState, args: seq<Value>)
    requires WellFormed(s) && !s.definition
    ensures Bind(s, args) == s && Bind(s, args).arguments == []
  {
  }

  /** Binding is cumulative and keeps the order of the arguments. */
  lemma BindingAccumulates(s: EntityState, a: seq<Value>, b: seq<Value>)
    requires s.definition
    ensures Bind(Bind(s, a), b) == Bind(s, a + b)
    ensures Bind(Bind(s, a), b).arguments == s.arguments + a + b
  {
    assert s.arguments + a + b == s.arguments + (a + b);
  }

  /** The first resolution of a definition calls the payload once, with the
      bound arguments followed by the call arguments, and caches its value. */
  lemma FirstResolveInvokes(s: EntityState, args: seq<Value>, forceNew: bool, invoke: Invoker)
    requires s.definition && !s.resolved
    ensures Resolve(s, args, forceNew, invoke).calls == [s.arguments + args]
    ensures Resolve(s, args, forceNew, invoke).state.resolved
    ensures invoke(s.payload, s.arguments + args).Returned? ==>
              var v := invoke(s.payload, s.arguments + args).value;
              Resolve(s, args, forceNew, invoke).result == Ok(v) && Resolve(s, args, forceNew, invoke).state.value == v
  {
  }

  /** Once resolved, an unforced resolution returns the cached value, calls
      nothing and changes nothing, whatever the call arguments. */
  lemma CachedResolveReturnsValue(s: EntityState, args: seq<Value>, invoke: Invoker)
    requires s.definition && s.resolved
    ensures Resolve(s, args, false, invoke) == Resolved(s, Ok(s.value), [])
  {
  }

  /** A second, unforced resolution after any resolution of a definition
      returns what the first one returned (when that one succeeded), with
      no further call, even with other arguments or another callable
      behaviour. */
  lemma SecondResolveIsCached(s: EntityState, a1: seq<Value>, forceNew: bool, i1: Invoker, a2: seq<Value>, i2: Invoker)
    requires s.definition
    ensures var r1 := Resolve(s, a1, forceNew, i1);
            var r2 := Resolve(r1.state, a2, false, i2);
            r2.calls == [] && r2.state == r1.state && (r1.result.Ok? ==> r2.result == r1.result)
  {
    var r1 := Resolve(s, a1, forceNew, i1);
    assert r1.state.resolved || !Invokes(s, forceNew);
    if Invokes(s, forceNew) {
      CachedResolveReturnsValue(r1.state, a2, i2);
    }
  }

  /** A forced resolution of a definition always calls the payload again
      and replaces the cached value with what it returns. */
  lemma ForcedResolveInvokes(s: EntityState, args: seq<Value>, invoke: Invoker)
    requires s.definition
    ensures Resolve(s, args, true, invoke).calls == [s.arguments + args]
    ensures invoke(s.payload, s.arguments + args).Returned? ==>
              var v := invoke(s.payload, s.arguments + args).value;
              Resolve(s, args, true, invoke).result == Ok(v) && Resolve(s, args, true, invoke).state.value == v
  {
  }

  /** A call that throws is propagated, yet leaves the entity marked as
      resolved with its previous value, which later unforced resolutions
      return (null for a definition that was never resolved). */
  lemma ThrowingCallLeavesStaleCache(s: EntityState, args: seq<Value>, forceNew: bool, invoke: Invoker, a2: seq<Value>, i2: Invoker)
    requires Invokes(s, forceNew) && invoke(s.payload, s.arguments + args).Threw?
    ensures var r := Resolve(s, args, forceNew, invoke);
            && r.result == Err(CallFailure(invoke(s.payload, s.arguments + args).exception))
            && r.state.resolved && r.state.value == s.value
            && Resolve(r.state, a2, false, i2).result == Ok(s.value)
  {
  }
}
