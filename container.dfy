/**
 * `Container`: the facade over one entity collection and one provider
 * collection, with arguments bound to every entity it adds.
 */
module Containers {
  import opened Values
  import opened PhpArrays
  import EntityModel
  import opened Entities
  import opened EntityCollections
  import opened Providers

  /** The state of the entity that `add(spec.id, spec.payload, spec.kind)`
      stores when the container-wide arguments are `args`. */
  function Added(spec: EntitySpec, args: seq<Value>): (s: EntityModel.EntityState) {
    EntityModel.Bind(EntityModel.Initial(spec.id, spec.payload, spec.kind == TypeDefinition), args)
  }

  class Container {
    const collection: EntityCollection
    const providers: ProviderCollection
    /** `entityArguments`: bound to every entity the container adds. */
    var entityArguments: seq<Value>

    ghost predicate Valid()
      reads this, collection, collection.entities.Values, providers
    {
      collection.Valid() && providers.Valid()
    }

    /** `new Container(ec, pc)`: uses the collections given, or new empty
        ones. A given provider collection is taken to act on this container,
        as one the constructor builds does. */
    constructor (ec: EntityCollection?, pc: ProviderCollection?)
      requires ec != null ==> ec.Valid()
      requires pc != null ==> pc.Valid()
      ensures Valid() && entityArguments == []
      ensures ec != null ==> collection == ec
      ensures ec == null ==> fresh(collection) && collection.entities == map[]
      ensures pc != null ==> providers == pc
      ensures pc == null ==> fresh(providers) && providers.providers == [] && providers.registered == [] && providers.trace == []
    {
      var c: EntityCollection;
      if ec != null {
        c := ec;
      } else {
        c := new EntityCollection([]);
      }
      var ps: ProviderCollection;
      if pc != null {
        ps := pc;
      } else {
        ps := new ProviderCollection();
      }
      collection := c;
      providers := ps;
      entityArguments := [];
    }

    /** `addEntity(e)`: stores `e`, then binds the container-wide arguments
        to it, once. Returns the clone that `addArguments` makes, not the
        stored object. */
    method AddEntity(e: Entity) returns (copy: Entity)
      requires Valid() && e.Valid()
      modifies collection, e
      ensures Valid()
      ensures collection.entities == old(collection.entities)[e.id := e]
      ensures e.State() == EntityModel.Bind(old(e.State()), entityArguments) && e.calls == old(e.calls)
      ensures fresh(copy) && copy.State() == e.State()
    {
      var stored := collection.Add(e);
      copy := stored.AddArguments(entityArguments);
    }

    /** `add(id, payload, kind)`: wraps the payload in a new entity (a plain
        value unless told otherwise) and passes it through AddEntity. */
    method Add(id: string, payload: Value, kind: int := TypeValue) returns (copy: Entity)
      requires Valid()
      modifies collection
      ensures Valid()
      ensures id in collection.entities && fresh(collection.entities[id])
      ensures collection.entities == old(collection.entities)[id := collection.entities[id]]
      ensures collection.entities[id].id == id && collection.entities[id].kind == kind && collection.entities[id].calls == []
      ensures collection.entities[id].State() == Added(EntitySpec(id, payload, kind), entityArguments)
      ensures fresh(copy) && copy != collection.entities[id] && copy.State() == collection.entities[id].State()
    {
      var e := new Entity(id, payload, kind);
      copy := AddEntity(e);
    }

    /** `withEntityArguments(...args)`: appends to the container-wide
        arguments and returns the container. */
    method WithEntityArguments(args: seq<Value>) returns (self: Container)
      requires Valid()
      modifies this
      ensures Valid() && self == this
      ensures entityArguments == old(entityArguments) + args
    {
      entityArguments := entityArguments + args;
      return this;
    }

    /** What the `register` bodies of the registered providers do: the
        `add` calls they make, in order. */
    method PerformRegistrations(specs: seq<EntitySpec>)
      requires Valid()
      modifies collection
      ensures Valid()
      ensures var added := LastWins(specs, SpecId);
              && collection.entities.Keys == old(collection.entities).Keys + added.Keys
              && (forall k :: k in old(collection.entities) && k !in added ==> collection.entities[k] == old(collection.entities)[k])
              && (forall k :: k in added ==>
                    fresh(collection.entities[k]) && collection.entities[k].id == k && collection.entities[k].calls == [] &&
                    collection.entities[k].State() == Added(added[k], entityArguments))
    {
      for i := 0 to |specs|
        invariant Valid()
        invariant var added := LastWins(specs[..i], SpecId);
                  && collection.entities.Keys == old(collection.entities).Keys + added.Keys
                  && (forall k :: k in old(collection.entities) && k !in added ==> collection.entities[k] == old(collection.entities)[k])
                  && (forall k :: k in added ==>
                        fresh(collection.entities[k]) && collection.entities[k].id == k && collection.entities[k].calls == [] &&
                        collection.entities[k].State() == Added(added[k], entityArguments))
      {
        assert specs[..i + 1][..i] == specs[..i];
        var _ := Add(specs[i].id, specs[i].payload, specs[i].kind);
      }
      assert specs[..|specs|] == specs;
    }

    /** `register(id)` on the providers, then the `add` calls of the ones
        registered. Returns the entities added, by id. */
    method RegisterFor(id: string) returns (ghost added: map<string, EntitySpec>)
      requires Valid()
      modifies collection, providers
      ensures Valid()
      ensures var o := Registration(old(providers.providers), old(providers.registered), id);
              && added == LastWins(Contributions(o.fired), SpecId)
              && providers.providers == old(providers.providers)
              && providers.registered == o.registered
              && providers.trace == old(providers.trace) + Registrations(o.fired)
      ensures collection.entities.Keys == old(collection.entities).Keys + added.Keys
      ensures forall k :: k in old(collection.entities) && k !in added ==> collection.entities[k] == old(collection.entities)[k]
      ensures forall k :: k in added ==>
                fresh(collection.entities[k]) && collection.entities[k].id == k && collection.entities[k].calls == [] &&
                collection.entities[k].State() == Added(added[k], entityArguments)
    {
      var fired := providers.Register(id);
      added := LastWins(Contributions(fired), SpecId);
      PerformRegistrations(Contributions(fired));
    }

    /** The provider branch shared by `get` and `make`: registers the
        providers for `id`, runs the `add` calls of the ones that fired, and
        resolves `id` in the collection, which fails with the
        RuntimeException if none of them added it. */
    method RegisterAndResolve(id: string, args: seq<Value>, forceNew: bool, invoke: Invoker) returns (r: Result<Value>)
      requires Valid() && id !in collection.entities
      modifies collection, providers
      ensures Valid()
      ensures var o := Registration(old(providers.providers), old(providers.registered), id);
              var added := LastWins(Contributions(o.fired), SpecId);
              && providers.providers == old(providers.providers)
              && providers.registered == o.registered
              && providers.trace == old(providers.trace) + Registrations(o.fired)
              && collection.entities.Keys == old(collection.entities).Keys + added.Keys
              && (forall k :: k in old(collection.entities) && k !in added ==> collection.entities[k] == old(collection.entities)[k])
              && (forall k :: k in added ==> fresh(collection.entities[k]))
              && (forall k :: k in added && k != id ==> collection.entities[k].State() == Added(added[k], entityArguments))
              && (id !in added ==> r == Err(EntityMissing(id)))
              && (id in added ==>
                    var res := EntityModel.Resolve(Added(added[id], entityArguments), args, forceNew, invoke);
                    collection.entities[id].State() == res.state && r == res.result && collection.entities[id].calls == res.calls)
    {
      ghost var added := RegisterFor(id);
      ghost var between := collection.entities;
      ghost var slot := collection.Slot(id);
      assert forall k :: k in added && k != id ==> between[k] !in slot by {
        forall k | k in added && k != id
          ensures between[k] !in slot
        {
          assert between[k].id == k;
        }
      }
      r := collection.Resolve(id, invoke, args, forceNew);
    }

    /** `get(id)`, routed: a known id is resolved (unforced) in the
        collection; otherwise, when a provider declares it, RegisterAndResolve
        with no arguments, unforced; otherwise NotFoundException. */
    method Get(id: string, invoke: Invoker) returns (r: Result<Value>)
      requires Valid()
      modifies collection, providers, collection.Slot(id)
      ensures Valid()
      ensures id in old(collection.entities) ==>
                var res := EntityModel.Resolve(old(collection.entities[id].State()), [], false, invoke);
                && collection.entities == old(collection.entities) && unchanged(providers)
                && collection.entities[id].State() == res.state && r == res.result
                && collection.entities[id].calls == old(collection.entities[id].calls) + res.calls
      ensures id !in old(collection.entities) && !Declared(old(providers.providers), id) ==>
                r == Err(NotFound(id)) && unchanged(collection) && unchanged(providers)
      ensures id !in old(collection.entities) && Declared(old(providers.providers), id) ==>
                var o := Registration(old(providers.providers), old(providers.registered), id);
                var added := LastWins(Contributions(o.fired), SpecId);
                && providers.providers == old(providers.providers)
                && providers.registered == o.registered
                && providers.trace == old(providers.trace) + Registrations(o.fired)
                && collection.entities.Keys == old(collection.entities).Keys + added.Keys
                && (forall k :: k in old(collection.entities) && k !in added ==> collection.entities[k] == old(collection.entities)[k])
                && (forall k :: k in added ==> fresh(collection.entities[k]))
                && (forall k :: k in added && k != id ==> collection.entities[k].State() == Added(added[k], entityArguments))
                && (id !in added ==> r == Err(EntityMissing(id)))
                && (id in added ==>
                      var res := EntityModel.Resolve(Added(added[id], entityArguments), [], false, invoke);
                      collection.entities[id].State() == res.state && r == res.result && collection.entities[id].calls == res.calls)
    {
      var known := collection.Has(id);
      if known {
        r := collection.Get(id, invoke);
        return;
      }
      var declared;
      ghost var asked;
      declared, asked := providers.Has(id);
      if !declared {
        return Err(NotFound(id));
      }
      r := RegisterAndResolve(id, [], false, invoke);
    }

    /** `make(id, ...params)`: routed like Get, but resolves with the call
        parameters and forces a new call of a definition. */
    method Make(id: string, params: seq<Value>, invoke: Invoker) returns (r: Result<Value>)
      requires Valid()
      modifies collection, providers, collection.Slot(id)
      ensures Valid()
      ensures id in old(collection.entities) ==>
                var res := EntityModel.Resolve(old(collection.entities[id].State()), params, true, invoke);
                && collection.entities == old(collection.entities) && unchanged(providers)
                && collection.entities[id].State() == res.state && r == res.result
                && collection.entities[id].calls == old(collection.entities[id].calls) + res.calls
      ensures id !in old(collection.entities) && !Declared(old(providers.providers), id) ==>
                r == Err(NotFound(id)) && unchanged(collection) && unchanged(providers)
      ensures id !in old(collection.entities) && Declared(old(providers.providers), id) ==>
                var o := Registration(old(providers.providers), old(providers.registered), id);
                var added := LastWins(Contributions(o.fired), SpecId);
                && providers.providers == old(providers.providers)
                && providers.registered == o.registered
                && providers.trace == old(providers.trace) + Registrations(o.fired)
                && collection.entities.Keys == old(collection.entities).Keys + added.Keys
                && (forall k :: k in old(collection.entities) && k !in added ==> collection.entities[k] == old(collection.entities)[k])
                && (forall k :: k in added ==> fresh(collection.entities[k]))
                && (forall k :: k in added && k != id ==> collection.entities[k].State() == Added(added[k], entityArguments))
                && (id !in added ==> r == Err(EntityMissing(id)))
                && (id in added ==>
                      var res := EntityModel.Resolve(Added(added[id], entityArguments), params, true, invoke);
                      collection.entities[id].State() == res.state && r == res.result && collection.entities[id].calls == res.calls)
    {
      var known := collection.Has(id);
      if known {
        r := collection.Resolve(id, invoke, params, true);
        return;
      }
      var declared;
      ghost var asked;
      declared, asked := providers.Has(id);
      if !declared {
        return Err(NotFound(id));
      }
      r := RegisterAndResolve(id, params, true, invoke);
    }

    /** `has(id)`: known to the collection or declared by a provider. It
        registers nothing, so it does not promise that Get succeeds, only
        that Get does not fail with NotFoundException. */
    method Has(id: string) returns (b: bool)
      ensures b <==> id in collection.entities || Declared(providers.providers, id)
    {
      b := collection.Has(id);
      if !b {
        ghost var asked;
        b, asked := providers.Has(id);
      }
    }

    /** `remove(id)`: delegated unchanged. */
    method Remove(id: string)
      requires Valid()
      modifies collection
      ensures Valid()
      ensures collection.entities == old(collection.entities) - {id}
    {
      collection.Remove(id);
    }

    /** `alias(a, id)`: delegated unchanged; an unknown `id` throws. */
    method Alias(a: string, id: string) returns (s: Status)
      requires Valid()
      modifies collection
      ensures Valid()
      ensures id in old(collection.entities) ==>
                collection.entities == old(collection.entities)[a := old(collection.entities)[id]] && s == Done
      ensures id !in old(collection.entities) ==>
                collection.entities == old(collection.entities) && s == Failed(EntityMissing(id))
    {
      var r := collection.Alias(a, id);
      s := if r.Ok? then Done else Failed(r.error);
    }

    /** `addEntityProvider(p)`: delegated; returns the container. */
    method AddEntityProvider(p: Provider) returns (self: Container)
      requires Valid()
      modifies providers
      ensures Valid() && self == this && providers.registered == old(providers.registered)
      ensures p in old(providers.providers) ==>
                providers.providers == old(providers.providers) && providers.trace == old(providers.trace)
      ensures p !in old(providers.providers) ==>
                providers.providers == old(providers.providers) + [p] &&
                providers.trace == old(providers.trace) + (if p.bootable then [BootCall(p)] else [])
    {
      var _ := providers.Add(p);
      return this;
    }
  }
}
