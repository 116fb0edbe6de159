/**
 * `EntityCollection`: a map from names to entity objects. An alias is a
 * second name for the same object, so the two names share one cache.
 */
module EntityCollections {
  import opened Values
  import opened PhpArrays
  import EntityModel
  import opened Entities

  /** The key `add` stores an entity under. */
  function IdOf(e: Entity): (id: string) {
    e.id
  }

  class EntityCollection {
    var entities: map<string, Entity>

    ghost predicate Valid()
      reads this, entities.Values
    {
      forall k :: k in entities ==> entities[k].Valid()
    }

    /** The objects that resolving `id` may change. */
    function Slot(id: string): (objects: set<Entity>)
      reads this
    {
      if id in entities then {entities[id]} else {}
    }

    /** `new EntityCollection(es)`: adds the entities in order, so a later
        entity with the same id replaces an earlier one. */
    constructor (es: seq<Entity>)
      requires forall i :: 0 <= i < |es| ==> es[i].Valid()
      ensures Valid()
      ensures entities == LastWins(es, IdOf)
      ensures forall k :: k in entities <==> exists i :: 0 <= i < |es| && es[i].id == k
      ensures forall i :: 0 <= i < |es| && (forall j :: i < j < |es| ==> es[j].id != es[i].id) ==>
                es[i].id in entities && entities[es[i].id] == es[i]
    {
      entities := map[];
      new;
      for i := 0 to |es|
        invariant entities == LastWins(es[..i], IdOf)
        invariant Valid()
      {
        assert es[..i + 1][..i] == es[..i];
        var _ := Add(es[i]);
      }
      assert es[..|es|] == es;
      LastWinsLookup(es, IdOf);
    }

    /** `add(e)`: stores `e` under its id, replacing what was there. */
    method Add(e: Entity) returns (r: Entity)
      requires Valid() && e.Valid()
      modifies this
      ensures Valid()
      ensures entities == old(entities)[e.id := e] && r == e
    {
      entities := entities[e.id := e];
      return e;
    }

    /** `alias(a, id)`: the name `a` now denotes the very object `id`
        denotes; an unknown `id` throws and changes nothing. */
    method Alias(a: string, id: string) returns (r: Result<Entity>)
      requires Valid()
      modifies this
      ensures Valid()
      ensures id in old(entities) ==> entities == old(entities)[a := old(entities)[id]] && r == Ok(old(entities)[id])
      ensures id !in old(entities) ==> entities == old(entities) && r == Err(EntityMissing(id))
    {
      var found := Lookup(id);
      if found.Err? {
        return Err(found.error);
      }
      entities := entities[a := found.value];
      return found;
    }

    /** `get(id)`: `resolve()` with no arguments, unforced, on the stored
        entity. */
    method Get(id: string, invoke: Invoker) returns (r: Result<Value>)
      requires Valid()
      modifies Slot(id)
      ensures Valid()
      ensures id !in entities ==> r == Err(EntityMissing(id))
      ensures id in entities ==>
                var res := EntityModel.Resolve(old(entities[id].State()), [], false, invoke);
                entities[id].State() == res.state && r == res.result && entities[id].calls == old(entities[id].calls) + res.calls
    {
      var found := Lookup(id);
      if found.Err? {
        return Err(found.error);
      }
      r := found.value.Resolve(invoke);
    }

    /** `has(id)`: whether `id` is a key; alias names are keys. */
    method Has(id: string) returns (b: bool)
      ensures b <==> id in entities
    {
      return id in entities;
    }

    /** `remove(id)`: unsets that one key. Other names of the same object
        stay. */
    method Remove(id: string)
      requires Valid()
      modifies this
      ensures Valid()
      ensures entities == old(entities) - {id}
      ensures forall k :: k in old(entities) && k != id ==> k in entities && entities[k] == old(entities[k])
    {
      entities := entities - {id};
    }

    /** `resolve(id, args, forceNew)`: forwards both unchanged to the stored
        entity. */
    method Resolve(id: string, invoke: Invoker, args: seq<Value> := [], forceNew: bool := false) returns (r: Result<Value>)
      requires Valid()
      modifies Slot(id)
      ensures Valid()
      ensures id !in entities ==> r == Err(EntityMissing(id))
      ensures id in entities ==>
                var res := EntityModel.Resolve(old(entities[id].State()), args, forceNew, invoke);
                entities[id].State() == res.state && r == res.result && entities[id].calls == old(entities[id].calls) + res.calls
    {
      var found := Lookup(id);
      if found.Err? {
        return Err(found.error);
      }
      r := found.value.Resolve(invoke, args, forceNew);
    }

    /** `getEntity(id)`: the stored object, or the RuntimeException. */
    function Lookup(id: string): (r: Result<Entity>)
      reads this
      ensures r.Ok? <==> id in entities
      ensures r.Ok? ==> r.value == entities[id]
      ensures r.Err? ==> r.error == EntityMissing(id)
    {
      if id in entities then Ok(entities[id]) else Err(EntityMissing(id))
    }
  }
}
