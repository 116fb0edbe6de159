/**
 * `Entry`: the older twin of `Entity`. A definition needs both the flag and
 * a callable payload, and `addArguments` returns the receiver itself.
 */
module Entries {
  import opened Values
  import EntityModel

  class Entry {
    const id: string
    const payload: Value
    const isDefinition: bool
    var resolved: bool
    var value: Value
    var arguments: seq<Value>
    /** The argument lists the payload has been called with, in order. */
    ghost var calls: seq<seq<Value>>

    function State(): (s: EntityModel.EntityState)
      reads this
    {
      EntityModel.EntityState(id, payload, isDefinition, arguments, resolved, value)
    }

    ghost predicate Valid()
      reads this
    {
      EntityModel.WellFormed(State())
    }

    /** `new Entry(id, payload, definition)`; `isCallable` stands for PHP's
        `is_callable`, which the payload must satisfy for the entry to be a
        definition. */
    constructor (id: string, payload: Value, definition: bool, isCallable: Value -> bool)
      ensures isDefinition == (definition && isCallable(payload))
      ensures State() == EntityModel.Initial(id, payload, definition && isCallable(payload))
      ensures !isDefinition ==> value == payload
      ensures calls == [] && Valid()
    {
      this.id := id;
      this.payload := payload;
      this.isDefinition := if definition then isCallable(payload) else false;
      this.resolved := false;
      this.value := if definition && isCallable(payload) then Null else payload;
      this.arguments := [];
      this.calls := [];
    }

    /** `addArguments(...args)`: binds the arguments on a definition and
        returns this same object. */
    method AddArguments(args: seq<Value>) returns (self: Entry)
      requires Valid()
      modifies this
      ensures self == this
      ensures Valid() && State() == EntityModel.Bind(old(State()), args) && calls == old(calls)
      ensures isDefinition ==> arguments == old(arguments) + args
      ensures !isDefinition ==> arguments == []
    {
      if isDefinition {
        arguments := arguments + args;
      }
      return this;
    }

    /** `resolve(args, forceNew)`. */
    method Resolve(invoke: Invoker, args: seq<Value> := [], forceNew: bool := false) returns (r: Result<Value>)
      requires Valid()
      modifies this
      ensures Valid()
      ensures var res := EntityModel.Resolve(old(State()), args, forceNew, invoke);
              State() == res.state && r == res.result && calls == old(calls) + res.calls
      ensures !isDefinition ==> r == Ok(payload) && unchanged(this)
    {
      EntityModel.OperationsKeepWellFormed(State(), args, forceNew, invoke);
      if !isDefinition || (resolved && !forceNew) {
        return Ok(value);
      }
      resolved := true;
      var call := arguments + args;
      calls := calls + [call];
      match invoke(payload, call) {
        case Returned(v) =>
          value := v;
          r := Ok(value);
        case Threw(e) =>
          r := Err(CallFailure(e));
      }
    }
  }
}
