/**
 * `EntryCollection`: the older twin of `EntityCollection`, a map from names
 * to entry objects, without aliases or removal.
 */
module EntryCollections {
  import opened Values
  import opened PhpArrays
  import EntityModel
  import opened Entries

  /** The key `add` stores an entry under (`getIdentifier()`). */
  function IdentifierOf(e: Entry): (id: string) {
    e.id
  }

  class EntryCollection {
    var entries: map<string, Entry>

    ghost predicate Valid()
      reads this, entries.Values
    {
      forall k :: k in entries ==> entries[k].Valid()
    }

    /** The objects that resolving `id` may change. */
    function Slot(id: string): (objects: set<Entry>)
      reads this
    {
      if id in entries then {entries[id]} else {}
    }

    /** `new EntryCollection(es)`: adds the entries in order, so the last
        entry with a given id wins. */
    constructor (es: seq<Entry>)
      requires forall i :: 0 <= i < |es| ==> es[i].Valid()
      ensures Valid()
      ensures entries == LastWins(es, IdentifierOf)
      ensures forall k :: k in entries <==> exists i :: 0 <= i < |es| && es[i].id == k
      ensures forall i :: 0 <= i < |es| && (forall j :: i < j < |es| ==> es[j].id != es[i].id) ==>
                es[i].id in entries && entries[es[i].id] == es[i]
    {
      entries := map[];
      new;
      for i := 0 to |es|
        invariant entries == LastWins(es[..i], IdentifierOf)
        invariant Valid()
      {
        assert es[..i + 1][..i] == es[..i];
        var _ := Add(es[i]);
      }
      assert es[..|es|] == es;
      LastWinsLookup(es, IdentifierOf);
    }

    /** `add(e)`: stores `e` under its identifier, replacing what was there. */
    method Add(e: Entry) returns (r: Entry)
      requires Valid() && e.Valid()
      modifies this
      ensures Valid()
      ensures entries == old(entries)[e.id := e] && r == e
    {
      entries := entries[e.id := e];
      return e;
    }

    /** `get(id)`: `resolve()` with its default arguments on the stored entry. */
    method Get(id: string, invoke: Invoker) returns (r: Result<Value>)
      requires Valid()
      modifies Slot(id)
      ensures Valid()
      ensures id !in entries ==> r == Err(EntityMissing(id))
      ensures id in entries ==>
                var res := EntityModel.Resolve(old(entries[id].State()), [], false, invoke);
                entries[id].State() == res.state && r == res.result && entries[id].calls == old(entries[id].calls) + res.calls
    {
      var found := Lookup(id);
      if found.Err? {
        return Err(found.error);
      }
      r := found.value.Resolve(invoke);
    }

    /** `has(id)`: whether `id` is a key. */
    method Has(id: string) returns (b: bool)
      ensures b <==> id in entries
    {
      return id in entries;
    }

    /** `resolve(id, args, forceNew)`: forwards both unchanged to the stored
        entry. */
    method Resolve(id: string, invoke: Invoker, args: seq<Value> := [], forceNew: bool := false) returns (r: Result<Value>)
      requires Valid()
      modifies Slot(id)
      ensures Valid()
      ensures id !in entries ==> r == Err(EntityMissing(id))
      ensures id in entries ==>
                var res := EntityModel.Resolve(old(entries[id].State()), args, forceNew, invoke);
                entries[id].State() == res.state && r == res.result && entries[id].calls == old(entries[id].calls) + res.calls
    {
      var found := Lookup(id);
      if found.Err? {
        return Err(found.error);
      }
      r := found.value.Resolve(invoke, args, forceNew);
    }

    /** `getEntry(id)`: the stored object, or the RuntimeException. */
    function Lookup(id: string): (r: Result<Entry>)
      reads this
      ensures r.Ok? <==> id in entries
      ensures r.Ok? ==> r.value == entries[id]
      ensures r.Err? ==> r.error == EntityMissing(id)
    {
      if id in entries then Ok(entries[id]) else Err(EntityMissing(id))
    }
  }
}
