# constanze-standard/container, modelled in Dafny

This project models the PHP dependency-injection container `constanze-standard/container` and proves properties of it. It covers:

- **Entities and entries.** An entity (`Entity`, and its older twin `Entry`) is one named item. It is either a plain value or a *definition*: a callable invoked lazily with its bound arguments followed by the call arguments. The result is cached in the fields `resolved` and `value`, and the cache is bypassed only by a forced resolution.
- **Collections.** `EntityCollection` (and the older `EntryCollection`) is a map from names to entity objects. An alias is a second key for the *same* object, so the two names share one cache.
- **Provider collections.** `EntityProviderCollection` and its twins `EntryProviderCollection` and `ServiceProviderCollection` keep an ordered list of providers.
  - Adding a provider de-duplicates by object identity and boots a bootable provider.
  - `register(id)` registers every provider that declares `id` and whose class name has not been registered yet, in order, without stopping at the first one.
- **The container.** `Container` routes `get` (cached), `make` (forced) and `has` between the entity collection and the providers. It binds the container-wide `entityArguments` to every entity it adds.
- **Service providers.** `AbstractServiceProvider::has` is a strict membership test over `$provides`.

## Layout

- `values.dfy`
  - module `Values`: PHP values (`Value`), the outcome of calling a user callable (`CallOutcome`), the error kinds and `Result`.
  - module `PhpArrays`: `in_array` with strict comparison, and the "last write wins" map built by a loop of `$a[$key] = $x`.
- `entity_model.dfy`, module `EntityModel`: the state of one entity as a value, and the functions `Initial`, `Bind` (the effect of `addArguments`) and `Resolve` (the effect and result of `resolve`). `Entity` and `Entry` are both specified by these functions. The caching behaviour is proved about them as lemmas.
- `entity.dfy`, module `Entities`: the class `Entity`.
- `entry.dfy`, module `Entries`: the class `Entry`.
- `entity_collection.dfy`, module `EntityCollections`: the class `EntityCollection`.
- `entry_collection.dfy`, module `EntryCollections`: the class `EntryCollection`.
- `providers.dfy`, module `Providers`: service providers, the registration scan as a function (`Registration`) with its lemmas, and the class `ProviderCollection`. This one class models all three provider collections, because their code is the same algorithm with renamed fields.
- `container.dfy`, module `Containers`: the class `Container`.

Modelling choices:

- **User callables.** A user callable is a `Value`. Calling one is a function parameter `invoke: Invoker` of every resolving method, and it returns either a value or a thrown exception. Each entity keeps a ghost log, `calls`, of the argument lists its callable received.
- **Getters as fields.** `getId`, `getIdentifier` and `isDefinition` read fields the constructor sets and nothing changes, so they are the `const` fields `id` and `isDefinition`, and the predicate `IsDefinition()`.
- **Entity kinds.** `TYPE_VALUE` and `TYPE_DEFINITION` are `0` and `1`. `Entity.php` reads them from `EntityInterface`, which is not part of this model. The values are inferred from the tests, which pass `false`/`true`, and PHP coerces those to `0`/`1`. Any other `kind` makes a plain value, as the strict comparison on `Entity.php:95` does.
- **Providers.** A provider is an object with:
  - a `className` (`get_class`);
  - the list `$provides`;
  - a `bootable` flag (implements the bootable interface);
  - `contributes`: the `Container::add` calls that its `register` body makes.

  Every provider's `has` is `AbstractServiceProvider::has`: strict membership of the id in a fixed `$provides`. In PHP, `has` is user code behind `EntityProviderInterface::has`. The model's `has` is pure, so the `has` that `Container::get` consults and the one the `register` scan consults always agree.

  The provider collection records every `boot` and `register` call in a ghost `trace`. The container performs the contributions of the registered providers, in order, before it looks the id up again.
- **Exceptions.** A thrown exception is an `Err`/`Failed` result:
  - `EntityMissing(id)` is the collection's `RuntimeException`;
  - `NotFound(id)` is `NotFoundException`;
  - `CallFailure(e)` is an exception from the callable, propagated unchanged.

## Model

The `ProviderCollection` rows cite `EntityProviderCollection.php`. The same members model `EntryProviderCollection.php` (`has` 64-73, `add` 82-93, `register` 103-116) and `ServiceProviderCollection.php` (the same lines).

| member | source | states |
|---|---|---|
| PhpArrays.InArray | src/AbstractServiceProvider.php:41 | strict `in_array` is exactly sequence membership |
| PhpArrays.LastWinsLookup | src/EntityCollection.php:37-44 | adding items in order keys the map by exactly the ids that occur, and each id holds its last occurrence |
| EntityModel.Initial | src/Entity.php:70-76 | a new entity is well formed, unresolved and has no bound arguments, with the given id, payload and kind; a definition's value is null, a plain value's is the payload |
| EntityModel.Bind | src/Entity.php:105-115 | binding changes only the bound arguments: a definition's become the old ones followed by the given ones, and a plain value is left as it was |
| EntityModel.Resolve | src/Entity.php:125-137 | resolution changes only the cache; it makes at most one call, exactly when the entity is a definition that is unresolved or forced, with the bound arguments then the call arguments, and then marks it resolved; without a call it returns the cached value and changes nothing |
| EntityModel.OperationsKeepWellFormed | src/Entity.php:105-136 | binding and resolving keep the entity invariant (a plain value never has bound arguments and always holds its payload) |
| EntityModel.ValueResolvesToPayload | src/Entity.php:127-128 | resolving a plain value returns its payload, calls nothing and changes nothing, whatever the arguments and the force flag |
| EntityModel.ValueIgnoresBinding | src/Entity.php:107 | binding arguments to a plain value changes nothing and leaves its arguments empty |
| EntityModel.BindingAccumulates | src/Entity.php:107-112 | two bindings on a definition equal one binding of the concatenation, appended in order |
| EntityModel.FirstResolveInvokes | src/Entity.php:131-134 | the first resolution of a definition makes exactly one call, with the bound arguments then the call arguments, marks it resolved and caches and returns what the call returned |
| EntityModel.CachedResolveReturnsValue | src/Entity.php:127-128 | an unforced resolution of a resolved definition returns the cached value, calls nothing and changes nothing, whatever the arguments |
| EntityModel.SecondResolveIsCached | src/Entity.php:125-137 | after any resolution, an unforced one makes no call and changes nothing; when the first call succeeded, it returns what that call returned, even with other arguments |
| EntityModel.ForcedResolveInvokes | src/Entity.php:127-136 | a forced resolution always calls again, and caches and returns the new result |
| EntityModel.ThrowingCallLeavesStaleCache | src/Entity.php:131-134 | a throwing call propagates its exception, but the entity stays marked resolved with its old value, which later unforced resolutions return |
| Entities.Entity.constructor | src/Entity.php:70-76 | the new entity's state is the initial one; a definition exactly when the kind is `TYPE_DEFINITION` |
| Entities.Entity.Clone | src/Entity.php:114 | the clone has the same state as the source |
| Entities.Entity.AddArguments | src/Entity.php:105-115 | the receiver's arguments grow by the given ones on a definition and stay empty on a value; the result is a fresh object with the receiver's new state |
| Entities.Entity.Resolve | src/Entity.php:125-137 | the new state, result and call log are those of `EntityModel.Resolve`; a plain value returns its payload unchanged |
| Entries.Entry.constructor | src/Entry.php:72-78 | a definition only when the flag is set and the payload is callable; otherwise the value is the payload |
| Entries.Entry.AddArguments | src/Entry.php:97-107 | appends to a definition's arguments only, and returns the receiver itself |
| Entities.Entity.IsDefinition | src/Entity.php:93-96 | true exactly when the kind is the definition type, the strict `===`; the constructor and `Resolve` contracts are stated through it |
| Entries.Entry.Resolve | src/Entry.php:117-129 | the new state, result and call log are those of `EntityModel.Resolve`; a non-definition returns its payload even when it is callable |
| EntityCollections.EntityCollection.constructor | src/EntityCollection.php:37-44 | the map is the last-write-wins map of the given entities |
| EntityCollections.EntityCollection.Add | src/EntityCollection.php:53-57 | stores the entity under its id, replacing any old one, and returns it |
| EntityCollections.EntityCollection.Alias | src/EntityCollection.php:67-72 | a known id: the alias now maps to the very same object; an unknown id throws and changes nothing |
| EntityCollections.EntityCollection.Get | src/EntityCollection.php:81-84 | a stored entity is resolved unforced with no arguments; a missing id throws and resolves nothing |
| EntityCollections.EntityCollection.Has | src/EntityCollection.php:93-96 | true exactly when the id is a key, aliases included |
| EntityCollections.EntityCollection.Remove | src/EntityCollection.php:103-106 | removes exactly that key; every other key keeps its object |
| EntityCollections.EntityCollection.Resolve | src/EntityCollection.php:117-120 | forwards the arguments and the force flag unchanged to the stored entity; a missing id throws |
| EntityCollections.EntityCollection.Lookup | src/EntityCollection.php:129-136 | the stored object when the key exists, the RuntimeException otherwise |
| EntryCollections.EntryCollection.constructor | src/EntryCollection.php:37-42 | the map is the last-write-wins map of the given entries |
| EntryCollections.EntryCollection.Add | src/EntryCollection.php:51-55 | stores the entry under its identifier, replacing any old one, and returns it |
| EntryCollections.EntryCollection.Get | src/EntryCollection.php:64-67 | the stored entry is resolved with the default arguments; a missing id throws |
| EntryCollections.EntryCollection.Has | src/EntryCollection.php:76-79 | true exactly when the id is a key |
| EntryCollections.EntryCollection.Resolve | src/EntryCollection.php:90-93 | forwards the arguments and the force flag unchanged; a missing id throws |
| EntryCollections.EntryCollection.Lookup | src/EntryCollection.php:102-110 | the stored object when the key exists, the RuntimeException otherwise |
| Providers.Provider.Has | src/AbstractServiceProvider.php:39-42 | true exactly when the id is strictly equal to an element of `$provides`, so it depends on membership only and is false for an empty list |
| Providers.Visit | src/EntityProviderCollection.php:104-112 | one turn of the scan: a provider is asked exactly when its class is unmarked, and registered (its class marked after the old marks) exactly when it also declares the id; otherwise nothing changes |
| Providers.Registration | src/EntityProviderCollection.php:101-114 | the scan asks only providers from the list, at most as many as the list holds, and registers only providers it asked that declare the id |
| Providers.RegistrationAppends | src/EntityProviderCollection.php:101-114 | the marks only grow: the new marks are the old ones followed by the class names of the registered providers, in order |
| Providers.RegistrationFiresUnmarkedDeclarers | src/EntityProviderCollection.php:103-114 | only providers that declare the id and whose class was unmarked are registered; no marked provider is even asked |
| Providers.RegistrationComplete | src/EntityProviderCollection.php:103-114 | the scan does not stop at the first match: afterwards, every provider that declares the id has its class marked |
| Providers.RegistrationKeepsNoDup | src/EntityProviderCollection.php:104-111 | no class name is ever marked twice |
| Providers.RegistrationWhenAllMarked | src/EntityProviderCollection.php:104-111 | when every declaring provider's class is already marked, the scan registers nobody and changes no mark |
| Providers.RegistrationIdempotent | src/EntityProviderCollection.php:101-114 | registering the same id a second time registers nobody |
| Providers.RegistrationOncePerClass | src/EntityProviderCollection.php:104-111 | one scan registers at most one provider per class name |
| Providers.RegistrationAcrossIds | src/EntityProviderCollection.php:104-111 | a class registered for one id is not registered again for another |
| Providers.ProviderCollection.constructor | src/EntityProviderCollection.php:52-55 | starts with no providers, no marks and an empty trace |
| Providers.ProviderCollection.Has | src/EntityProviderCollection.php:64-72 | true exactly when some stored provider declares the id; it asks providers in order and stops at the first that declares it |
| Providers.ProviderCollection.Add | src/EntityProviderCollection.php:81-93 | a stored instance: nothing changes and nothing is booted; a new one: booted once if bootable, then appended at the end |
| Providers.ProviderCollection.Turn | src/EntityProviderCollection.php:104-112 | one turn of the loop is one step of `Registration`, and keeps the marks duplicate-free and equal to the registrations in the trace |
| Providers.ProviderCollection.Register | src/EntityProviderCollection.php:101-114 | the new marks and the registered providers are those of `Registration`, and the trace gains one register call per registered provider, in order |
| Containers.Container.constructor | src/Container.php:59-67 | uses the given collections, or new empty ones; no entity arguments |
| Containers.Container.AddEntity | src/Container.php:76-81 | stores the entity, then binds the current entity arguments to it once; returns a fresh copy with its state |
| Containers.Container.Add | src/Container.php:92-97 | stores a fresh entity of the given kind (a value by default) whose state is the initial one with the entity arguments bound |
| Containers.Container.WithEntityArguments | src/Container.php:104-111 | appends to the entity arguments in order and returns the container |
| Containers.Container.PerformRegistrations | src/EntityProviderCollection.php:110 | the `add` calls of the registered providers' bodies: the keys grow by the added ids, untouched keys keep their objects, and each added id holds a fresh entity of its last `add` |
| Containers.Container.RegisterFor | src/Container.php:128 | the marks and trace after `register(id)` are those of `Registration`; the collection gains exactly the ids the registered providers add, each holding a fresh entity of its last `add` |
| Containers.Container.RegisterAndResolve | src/Container.php:127-130 | registers the providers for the id, performs their `add` calls, then resolves the id in the collection, or fails with the RuntimeException when no provider added it |
| Containers.Container.Get | src/Container.php:180-196 | a known id is resolved unforced and nothing else changes; a declared one registers once and resolves what was added, or fails with the RuntimeException; otherwise NotFoundException and nothing changes |
| Containers.Container.Make | src/Container.php:121-133 | routed like Get, but resolves with the call parameters and forced |
| Containers.Container.Has | src/Container.php:209-223 | true exactly when the collection has the id or a provider declares it; it changes nothing, so no provider is registered |
| Containers.Container.Remove | src/Container.php:154-157 | removes exactly that key from the collection |
| Containers.Container.Alias | src/Container.php:165-168 | delegates unchanged: a known id gains the alias, an unknown one fails with the RuntimeException and changes nothing |
| Containers.Container.AddEntityProvider | src/Container.php:142-147 | delegates to the provider collection's add and returns the container |

## Left out

- ArrayAccess (`Container.php:225-243`): one-line delegations to `has`, `get`, `add` and `remove`.
- The `is_string` guards of `get` and `has`: they cannot fail behind the typed `string` parameter.
- The interface files: they hold signatures only.
- What user callables do. A call is the `invoke` parameter; a thrown exception is `Threw`. Callables are assumed not to call back into the container: `invoke` is a pure function, so a definition closure that captures the container and calls `get` or `make` is not modelled, and the frames of `Container.Get` and `Container.Make` rely on this.
- `is_callable`, which `Entry` uses: it is a parameter of `Entry`'s constructor.
- Provider `register` and `boot` bodies.
  - A `register` body is the fixed list of `add` calls in `contributes`, performed after the scan. The scan never looks at the entity collection, so the container ends in the same state as with the calls interleaved.
  - Re-entrant calls from a body back into the container are not modelled: no body adds providers, registers, or resolves entities mid-scan.
  - `boot` is an event in the trace with no effect on the container.
  - A body that throws is not modelled. In PHP a throwing `register` body leaves its class unmarked, ends the scan and propagates out of `get` or `make` (`EntityProviderCollection.php:110-111`). A throwing `boot` leaves the provider unstored (`EntityProviderCollection.php:88-91`). The model's bodies always complete.
- The provider collection's `$container` back-reference. The model assumes that a collection's bodies act on the container that holds it. That is so when `Container` builds its own collection (`Container.php:65-66`). A collection passed to the constructor was built around some other container, so in PHP its bodies add into that other container and the `get` or `make` that triggered them then fails with the `RuntimeException`; the model instead lets them add into the holding container.
- Containers.Container.WithEntityArguments: argument lists are positional only, and each call appends. PHP's `array_merge` (`Container.php:106-109`) overwrites a string key instead, so `withEntityArguments(a: 1)` followed by `withEntityArguments(a: 2)` leaves one argument. `addArguments` drops the keys with `array_values` (`Entity.php:108-111`, `Entry.php:100-103`), so `Bind` is exact.
- Containers.Container.Make, Containers.Container.Get, Entities.Entity.Resolve, Entries.Entry.Resolve, EntityCollections.EntityCollection.Resolve and EntryCollections.EntryCollection.Resolve: string keys in the argument array passed to `resolve` or `make` become named arguments of the call (`Entity.php:132-134`, `Entry.php:123-125`); the collections forward such arrays unchanged. The model's call arguments are a positional `seq<Value>` and do not carry names.
- `NotFoundException` and the PSR interfaces: they are not part of this model, and the error kinds are variants of `Error`.
- Concurrency: the code has none.
