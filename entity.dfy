/**
 * `Entity`: one named item of the container, a plain value or a
 * definition whose callable is invoked lazily and whose result is cached.
 */
module Entities {
  import opened Values
  import EntityModel

  /** The entity types. `type` is an int; only TypeDefinition makes an
      entity a definition. */
  const TypeValue: int := 0
  const TypeDefinition: int := 1

  class Entity {
    const id: string
    const payload: Value
    const kind: int
    var resolved: bool
    var value: Value
    var arguments: seq<Value>
    /** The argument lists the payload has been called with, in order. */
    ghost var calls: seq<seq<Value>>

    /** `isDefinition()`: the strict comparison of the kind with the
        definition type. */
    predicate IsDefinition(): (b: bool)
      ensures b <==> kind == TypeDefinition
      ensures b ==> kind != TypeValue
    {
      kind == TypeDefinition
    }

    function State(): (s: EntityModel.EntityState)
      reads this
    {
      EntityModel.EntityState(id, payload, IsDefinition(), arguments, resolved, value)
    }

    ghost predicate Valid()
      reads this
    {
      EntityModel.WellFormed(State())
    }

    constructor (id: string, payload: Value, kind: int := TypeValue)
      ensures this.kind == kind && calls == [] && Valid()
      ensures State() == EntityModel.Initial(id, payload, kind == TypeDefinition)
    {
      this.id := id;
      this.payload := payload;
      this.kind := kind;
      this.resolved := false;
      this.value := if kind == TypeDefinition then Null else payload;
      this.arguments := [];
      this.calls := [];
    }

    /** `clone $source`: a new object with the same field values. */
    constructor Clone(source: Entity)
      requires source.Valid()
      ensures Valid() && State() == source.State() && kind == source.kind && calls == source.calls
    {
      id := source.id;
      payload := source.payload;
      kind := source.kind;
      resolved := source.resolved;
      value := source.value;
      arguments := source.arguments;
      calls := source.calls;
    }

    /** `addArguments(...args)`: binds the arguments on this entity, then
        returns a clone of it, so changes made through the result later do
        not reach the receiver and the other way round. */
    method AddArguments(args: seq<Value>) returns (copy: Entity)
      requires Valid()
      modifies this
      ensures Valid() && State() == EntityModel.Bind(old(State()), args) && calls == old(calls)
      ensures IsDefinition() ==> arguments == old(arguments) + args
      ensures !IsDefinition() ==> arguments == []
      ensures fresh(copy) && copy.Valid() && copy.State() == State() && copy.kind == kind
    {
      if IsDefinition() {
        arguments := arguments + args;
      }
      copy := new Entity.Clone(this);
    }

    /** `resolve(args, forceNew)`. */
    method Resolve(invoke: Invoker, args: seq<Value> := [], forceNew: bool := false) returns (r: Result<Value>)
      requires Valid()
      modifies this
      ensures Valid()
      ensures var res := EntityModel.Resolve(old(State()), args, forceNew, invoke);
              State() == res.state && r == res.result && calls == old(calls) + res.calls
      ensures !IsDefinition() ==> r == Ok(payload) && unchanged(this)
    {
      EntityModel.OperationsKeepWellFormed(State(), args, forceNew, invoke);
      if !IsDefinition() || (resolved && !forceNew) {
        return Ok(value);
      }
      resolved := true;
      var call := arguments + args;
      calls := calls + [call];
      match invoke(payload, call) {
        case Returned(v) =>
          value := v;
          r := Ok(value);
        case Threw(e) =>
          r := Err(CallFailure(e));
      }
    }
  }
}
