/**
 * Providers and the provider collection. One model stands for the three
 * collections of the repository (`EntityProviderCollection`,
 * `EntryProviderCollection`, `ServiceProviderCollection`), which run the
 * same algorithm over differently named fields.
 */
module Providers {
  import opened Values
  import opened PhpArrays

  /** One `Container::add(id, payload, kind)` call. */
  datatype EntitySpec = EntitySpec(id: string, payload: Value, kind: int)

  /** A provider object, seen through what the collection uses of it: its
      class name (`get_class`), the ids it declares (`$provides`), whether
      it is bootable, and the entities its `register` body adds to the
      container, in order. */
  class Provider {
    const className: string
    const provided: seq<Value>
    const bootable: bool
    const contributes: seq<EntitySpec>

    constructor (className: string, provided: seq<Value>, bootable: bool, contributes: seq<EntitySpec>)
      ensures this.className == className && this.provided == provided
      ensures this.bootable == bootable && this.contributes == contributes
    {
      this.className := className;
      this.provided := provided;
      this.bootable := bootable;
      this.contributes := contributes;
    }

    /** `AbstractServiceProvider::has`: strict membership of the id in
        `$provides`, so a provider declaring nothing declares no id, and
        neither order nor repetition in `$provides` matters. */
    function Has(id: string): (declared: bool)
      ensures declared <==> Str(id) in provided
    {
      InArray(provided, Str(id))
    }
  }

  /** The key an added entity is stored under. */
  function SpecId(s: EntitySpec): (id: string) {
    s.id
  }

  /** The `Container::add` calls that the `register` bodies of the given
      providers make, one provider after the other. */
  function Contributions(ps: seq<Provider>): (specs: seq<EntitySpec>)
    decreases |ps|
  {
    if ps == [] then [] else Contributions(ps[..|ps| - 1]) + ps[|ps| - 1].contributes
  }

  /** What happened to a provider, in order: booted on being added, or
      registered on demand. */
  datatype Event = BootCall(provider: Provider) | RegisterCall(provider: Provider)

  /** Some provider in the list declares `id`. */
  predicate Declared(ps: seq<Provider>, id: string) {
    exists i :: 0 <= i < |ps| && ps[i].Has(id)
  }

  function ClassNames(ps: seq<Provider>): (names: seq<string>)
    decreases |ps|
  {
    if ps == [] then [] else ClassNames(ps[..|ps| - 1]) + [ps[|ps| - 1].className]
  }

  function Bootables(ps: seq<Provider>): (bootables: seq<Provider>)
    decreases |ps|
  {
    if ps == [] then []
    else Bootables(ps[..|ps| - 1]) + (if ps[|ps| - 1].bootable then [ps[|ps| - 1]] else [])
  }

  /** The class names of the registered providers in a trace, in order. */
  ghost function RegisteredNames(t: seq<Event>): (names: seq<string>)
    decreases |t|
  {
    if t == [] then []
    else RegisteredNames(t[..|t| - 1]) + (if t[|t| - 1].RegisterCall? then [t[|t| - 1].provider.className] else [])
  }

  /** The booted providers in a trace, in order. */
  ghost function Booted(t: seq<Event>): (booted: seq<Provider>)
    decreases |t|
  {
    if t == [] then []
    else Booted(t[..|t| - 1]) + (if t[|t| - 1].BootCall? then [t[|t| - 1].provider] else [])
  }

  ghost function Registrations(fired: seq<Provider>): (events: seq<Event>)
    decreases |fired|
  {
    if fired == [] then [] else Registrations(fired[..|fired| - 1]) + [RegisterCall(fired[|fired| - 1])]
  }

  /** The marks after `register(id)`, the providers it registered, and the
      providers whose `has` it consulted, each in order. */
  datatype RegisterOutcome = RegisterOutcome(registered: seq<string>, fired: seq<Provider>, asked: seq<Provider>)

  /** `register(id)` over providers `ps` with marks `marks`: every provider
      whose class name is unmarked at its turn is asked `has(id)`; each one
      that declares `id` is registered and its class name marked. The scan
      does not stop at the first match. */
  function Registration(ps: seq<Provider>, marks: seq<string>, id: string): (r: RegisterOutcome)
    ensures |r.fired| <= |r.asked| <= |ps|
    ensures forall q :: q in r.fired ==> q in r.asked && q.Has(id)
    ensures forall q :: q in r.asked ==> q in ps
    decreases |ps|
  {
    if ps == [] then RegisterOutcome(marks, [], [])
    else Visit(Registration(ps[..|ps| - 1], marks, id), ps[|ps| - 1], id)
  }

  /** One turn of the scan, on provider `p`. */
  function Visit(o: RegisterOutcome, p: Provider, id: string): (r: RegisterOutcome)
    ensures r.asked == o.asked || r.asked == o.asked + [p]
    ensures r.fired == o.fired || r.fired == o.fired + [p]
    ensures r.asked != o.asked <==> p.className !in o.registered
    ensures r.fired != o.fired <==> p.className !in o.registered && p.Has(id)
    ensures r.registered == if r.fired == o.fired then o.registered else o.registered + [p.className]
  {
    if p.className in o.registered then o
    else if p.Has(id) then RegisterOutcome(o.registered + [p.className], o.fired + [p], o.asked + [p])
    else o.(asked := o.asked + [p])
  }

  lemma RegistrationStep(ps: seq<Provider>, marks: seq<string>, id: string, i: nat)
    requires i < |ps|
    ensures Registration(ps[..i + 1], marks, id) == Visit(Registration(ps[..i], marks, id), ps[i], id)
  {
    assert ps[..i + 1][..i] == ps[..i];
  }

  lemma TraceRegister(t: seq<Event>, p: Provider)
    ensures RegisteredNames(t + [RegisterCall(p)]) == RegisteredNames(t) + [p.className]
    ensures Booted(t + [RegisterCall(p)]) == Booted(t)
  {
    assert (t + [RegisterCall(p)])[..|t|] == t;
  }

  /** Registering an unmarked provider keeps the marks duplicate-free and
      equal to the names the trace records. */
  lemma RecordRegistration(t: seq<Event>, marks: seq<string>, p: Provider)
    requires RegisteredNames(t) == marks && NoDup(marks) && p.className !in marks
    ensures RegisteredNames(t + [RegisterCall(p)]) == marks + [p.className]
    ensures NoDup(marks + [p.className])
    ensures Booted(t + [RegisterCall(p)]) == Booted(t)
  {
    TraceRegister(t, p);
    NoDupAppend(marks, p.className);
  }

  lemma TraceBoot(t: seq<Event>, p: Provider)
    ensures RegisteredNames(t + [BootCall(p)]) == RegisteredNames(t)
    ensures Booted(t + [BootCall(p)]) == Booted(t) + [p]
  {
    assert (t + [BootCall(p)])[..|t|] == t;
  }

  /** Adding a provider not yet stored, booting it first when bootable,
      keeps the stored providers duplicate-free and the boot calls equal to
      the bootable ones, and marks nothing. */
  lemma RecordAddition(t: seq<Event>, ps: seq<Provider>, p: Provider)
    requires Booted(t) == Bootables(ps) && NoDup(ps) && p !in ps
    ensures NoDup(ps + [p])
    ensures p.bootable ==>
              Booted(t + [BootCall(p)]) == Bootables(ps + [p]) &&
              RegisteredNames(t + [BootCall(p)]) == RegisteredNames(t)
    ensures !p.bootable ==> Booted(t) == Bootables(ps + [p])
  {
    TraceBoot(t, p);
    BootablesAppend(ps, p);
    NoDupAppend(ps, p);
  }

  lemma RegistrationsAppend(fired: seq<Provider>, p: Provider)
    ensures Registrations(fired + [p]) == Registrations(fired) + [RegisterCall(p)]
  {
    assert (fired + [p])[..|fired|] == fired;
  }

  lemma BootablesAppend(ps: seq<Provider>, p: Provider)
    ensures Bootables(ps + [p]) == Bootables(ps) + (if p.bootable then [p] else [])
  {
    assert (ps + [p])[..|ps|] == ps;
  }

  lemma ClassNamesAppend(ps: seq<Provider>, p: Provider)
    ensures ClassNames(ps + [p]) == ClassNames(ps) + [p.className]
  {
    assert (ps + [p])[..|ps|] == ps;
  }

  lemma {:induction false} ClassNameOfMember(ps: seq<Provider>, q: Provider)
    requires q in ps
    ensures q.className in ClassNames(ps)
    decreases |ps|
  {
    if q != ps[|ps| - 1] {
      var i :| 0 <= i < |ps| && ps[i] == q;
      assert ps[..|ps| - 1][i] == q;
      ClassNameOfMember(ps[..|ps| - 1], q);
    }
  }

  /** The marks only grow: the new marks are the old ones followed by the
      class names of the registered providers. */
  lemma {:induction false} RegistrationAppends(ps: seq<Provider>, marks: seq<string>, id: string)
    ensures Registration(ps, marks, id).registered == marks + ClassNames(Registration(ps, marks, id).fired)
    decreases |ps|
  {
    if ps != [] {
      var init := ps[..|ps| - 1];
      RegistrationAppends(init, marks, id);
      var o := Registration(init, marks, id);
      var p := ps[|ps| - 1];
      var r := Registration(ps, marks, id);
      assert r == Visit(o, p, id);
      if p.className !in o.registered && p.Has(id) {
        ClassNamesAppend(o.fired, p);
        assert r.registered == (marks + ClassNames(o.fired)) + [p.className];
      } else {
        assert r.registered == o.registered && r.fired == o.fired;
      }
    }
  }

  /** Only providers of the list that declare `id` and whose class name was
      not marked are registered; a provider whose class name was marked is
      not even asked. */
  lemma {:induction false} RegistrationFiresUnmarkedDeclarers(ps: seq<Provider>, marks: seq<string>, id: string)
    ensures forall q :: q in Registration(ps, marks, id).fired ==> q in ps && q.Has(id) && q.className !in marks
    ensures forall q :: q in Registration(ps, marks, id).asked ==> q in ps && q.className !in marks
    decreases |ps|
  {
    if ps != [] {
      var init := ps[..|ps| - 1];
      RegistrationFiresUnmarkedDeclarers(init, marks, id);
      RegistrationAppends(init, marks, id);
      assert forall q :: q in init ==> q in ps;
    }
  }

  /** Registration never marks a class name twice. */
  lemma {:induction false} RegistrationKeepsNoDup(ps: seq<Provider>, marks: seq<string>, id: string)
    requires NoDup(marks)
    ensures NoDup(Registration(ps, marks, id).registered)
    decreases |ps|
  {
    if ps != [] {
      RegistrationKeepsNoDup(ps[..|ps| - 1], marks, id);
    }
  }

  /** No break: after `register(id)`, every provider of the list that
      declares `id` has its class name marked. */
  lemma {:induction false} RegistrationComplete(ps: seq<Provider>, marks: seq<string>, id: string)
    ensures forall i :: 0 <= i < |ps| && ps[i].Has(id) ==> ps[i].className in Registration(ps, marks, id).registered
    decreases |ps|
  {
    if ps != [] {
      var init := ps[..|ps| - 1];
      RegistrationComplete(init, marks, id);
      forall i | 0 <= i < |init| && ps[i].Has(id)
        ensures ps[i].className in Registration(ps, marks, id).registered
      {
        assert init[i] == ps[i];
      }
    }
  }

  /** When every provider declaring `id` is already marked, `register(id)`
      registers nobody and marks nothing. */
  lemma {:induction false} RegistrationWhenAllMarked(ps: seq<Provider>, marks: seq<string>, id: string)
    requires forall i :: 0 <= i < |ps| && ps[i].Has(id) ==> ps[i].className in marks
    ensures Registration(ps, marks, id).fired == [] && Registration(ps, marks, id).registered == marks
    decreases |ps|
  {
    if ps != [] {
      var init := ps[..|ps| - 1];
      forall i | 0 <= i < |init| && init[i].Has(id) ensures init[i].className in marks {
        assert init[i] == ps[i];
      }
      RegistrationWhenAllMarked(init, marks, id);
    }
  }

  /** Registering the same id again registers nobody. */
  lemma RegistrationIdempotent(ps: seq<Provider>, marks: seq<string>, id: string)
    ensures var o := Registration(ps, marks, id);
            Registration(ps, o.registered, id).fired == []
  {
    var o := Registration(ps, marks, id);
    RegistrationComplete(ps, marks, id);
    RegistrationWhenAllMarked(ps, o.registered, id);
  }

  /** With duplicate-free marks, one `register(id)` registers at most one
      provider per class name. */
  lemma RegistrationOncePerClass(ps: seq<Provider>, marks: seq<string>, id: string)
    requires NoDup(marks)
    ensures NoDup(ClassNames(Registration(ps, marks, id).fired))
  {
    var o := Registration(ps, marks, id);
    RegistrationAppends(ps, marks, id);
    RegistrationKeepsNoDup(ps, marks, id);
    var names := ClassNames(o.fired);
    forall i, j | 0 <= i < j < |names| ensures names[i] != names[j] {
      assert o.registered[|marks| + i] == names[i];
      assert o.registered[|marks| + j] == names[j];
    }
  }

  /** A provider registered while serving one id is not registered again
      while serving another, and neither is any other provider of its
      class. */
  lemma RegistrationAcrossIds(ps: seq<Provider>, marks: seq<string>, id1: string, id2: string)
    ensures var o1 := Registration(ps, marks, id1);
            var o2 := Registration(ps, o1.registered, id2);
            forall q, r :: q in o1.fired && r in o2.fired ==> q.className != r.className
  {
    var o1 := Registration(ps, marks, id1);
    var o2 := Registration(ps, o1.registered, id2);
    RegistrationAppends(ps, marks, id1);
    RegistrationFiresUnmarkedDeclarers(ps, o1.registered, id2);
    forall q, r | q in o1.fired && r in o2.fired ensures q.className != r.className {
      ClassNameOfMember(o1.fired, q);
    }
  }

  /** The provider collection. `registered` holds class names; `trace` is
      the ghost record of the boot and register calls made on providers. */
  class ProviderCollection {
    var providers: seq<Provider>
    var registered: seq<string>
    ghost var trace: seq<Event>

    /** No provider object is stored twice; no class name is marked twice;
        the marks are exactly the class names of the register calls made,
        in order; and the boot calls made are exactly those for the
        bootable stored providers, in order, so each was booted once. */
    ghost predicate Valid()
      reads this
    {
      && NoDup(providers)
      && NoDup(registered)
      && RegisteredNames(trace) == registered
      && Booted(trace) == Bootables(providers)
    }

    constructor ()
      ensures Valid() && providers == [] && registered == [] && trace == []
    {
      providers := [];
      registered := [];
      trace := [];
    }

    /** `has(id)`: some stored provider declares `id`. The scan stops at the
        first provider that does; `asked` is how many were consulted. */
    method Has(id: string) returns (b: bool, ghost asked: nat)
      ensures b <==> Declared(providers, id)
      ensures asked <= |providers|
      ensures b ==> 0 < asked && providers[asked - 1].Has(id) &&
                    forall j :: 0 <= j < asked - 1 ==> !providers[j].Has(id)
      ensures !b ==> asked == |providers|
    {
      for i := 0 to |providers|
        invariant forall j :: 0 <= j < i ==> !providers[j].Has(id)
      {
        if providers[i].Has(id) {
          return true, i + 1;
        }
      }
      return false, |providers|;
    }

    /** `add(p)`: a provider object already stored is ignored; otherwise it
        is booted first if bootable, then appended. Returns the collection. */
    method Add(p: Provider) returns (self: ProviderCollection)
      requires Valid()
      modifies this
      ensures Valid() && self == this && registered == old(registered)
      ensures p in old(providers) ==> providers == old(providers) && trace == old(trace)
      ensures p !in old(providers) ==>
                providers == old(providers) + [p] &&
                trace == old(trace) + (if p.bootable then [BootCall(p)] else [])
    {
      if InArray(providers, p) {
        return this;
      }
      RecordAddition(trace, providers, p);
      if p.bootable {
        trace := trace + [BootCall(p)];
      }
      providers := providers + [p];
      return this;
    }

    /** `register(id)`: see Registration. Returns the providers registered,
        in order; their `register` bodies run in that order. */
    method Register(id: string) returns (fired: seq<Provider>)
      requires Valid()
      modifies this
      ensures Valid() && providers == old(providers)
      ensures var o := Registration(old(providers), old(registered), id);
              registered == o.registered && fired == o.fired
      ensures trace == old(trace) + Registrations(fired)
    {
      fired := [];
      ghost var asked: seq<Provider> := [];
      for i := 0 to |providers|
        invariant providers == old(providers)
        invariant RegisterOutcome(registered, fired, asked) == Registration(providers[..i], old(registered), id)
        invariant trace == old(trace) + Registrations(fired)
        invariant Valid()
      {
        RegistrationStep(providers, old(registered), id, i);
        fired, asked := Turn(providers[i], id, fired, asked, old(trace));
      }
      assert providers[..|providers|] == providers;
    }

    /** One turn of the loop in `register(id)`, on provider `p`: if its
        class name is unmarked and it declares `id`, it is registered and
        its class name marked. */
    method Turn(p: Provider, id: string, fired: seq<Provider>, ghost asked: seq<Provider>, ghost t0: seq<Event>)
      returns (firedAfter: seq<Provider>, ghost askedAfter: seq<Provider>)
      requires NoDup(registered) && RegisteredNames(trace) == registered
      requires trace == t0 + Registrations(fired)
      modifies this
      ensures providers == old(providers) && Booted(trace) == Booted(old(trace))
      ensures NoDup(registered) && RegisteredNames(trace) == registered
      ensures trace == t0 + Registrations(firedAfter)
      ensures RegisterOutcome(registered, firedAfter, askedAfter) == Visit(RegisterOutcome(old(registered), fired, asked), p, id)
    {
      firedAfter, askedAfter := fired, asked;
      var providerName := p.className;
      if !InArray(registered, providerName) {
        askedAfter := asked + [p];
        if p.Has(id) {
          RecordRegistration(trace, registered, p);
          RegistrationsAppend(fired, p);
          assert t0 + Registrations(fired + [p]) == trace + [RegisterCall(p)];
          trace := trace + [RegisterCall(p)];
          registered := registered + [providerName];
          firedAfter := fired + [p];
        }
      }
    }
  }
}
