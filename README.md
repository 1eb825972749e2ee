# Adapters — a verified model of the adapter factory

Adapters (namespace `Adapters`, C#) makes an object usable through an
interface or an extensible base class that it does not implement. Given a
contract type and an instance, `AdapterFactory` generates, once per
instance type, a new type deriving from the contract. It stores the
wrapped instance in a private field and implements every eligible contract
member by forwarding to that instance. A forwarding body is one of three
kinds:
- a direct call, when a compatible public method is found when the type is generated;
- a reflective lookup on every call, when none is found;
- with an interception proxy (`IAdapterProxy`) configured, a call into the
  proxy. The default proxy, `AdapterProxy`, forwards by reflection itself.

The model is split by source file:

| file | models |
|---|---|
| `wrappers.dfy` | `Option` and `Result` |
| `linq.dfy` | `Where`, `Select`, `Distinct`/`Union`, `FirstOrDefault` as the lookups use them, and `Preferred`, a reference definition of "first exact match, else first assignable match" |
| `types.dfy` | the reflection world: types, methods, properties, fields, events, run-time values, and `Instance`, the wrapped object, as a class whose property values, indexer values and event handler lists change in place |
| `type_comparer.dfy` | `TypeComparer.cs`: the two comparison loops, proved equal to quantified predicates |
| `type_reflector.dfy` | `TypeReflector.cs`: lookup of fields, properties, events, constructors, methods (with the single-candidate fast path) and indexers |
| `method_emitter.dfy` | `AdapterFactory.MethodEmitter.cs`: candidate selection, the choice of direct or reflective body, and the two bodies as step sequences built by loops; a symbolic evaluation-stack machine gives each body its meaning (the calls it makes, the value it returns, or an invalid stack at `ret`) |
| `adapter_factory.dfy` | `AdapterFactory.cs`: contract validation, the module dictionary, naming and caching of adapter types, member eligibility and generation order, and `CreateAdapter` with the proxy field |
| `adapter_proxy.dfy` | `AdapterProxy.cs`: `Invoke`, property and indexer `Get`/`Set`, `Hook`/`Unhook` on the wrapped instance |

Five behaviours of the code worth noting, each modelled as written:
- Without a proxy, event accessors are bound by the method rule
  (`AdapterFactory.EventEmitter.cs`), not routed through the interception
  layer.
- Adapter types are cached by the instance type's full name plus the
  proxy suffix, not by the run-time type itself (`AdapterFactory.cs:166-170`).
- A reflective body looks the method up on the static type of the field
  holding the wrapped instance, which is the instance type at generation
  time, not on the instance's current run-time type
  (`AdapterFactory.MethodEmitter.cs:84-85`).
- A direct body's target is chosen by name and parameter types only
  (`AdapterFactory.MethodEmitter.cs:29-41`). A static method, or one that
  returns a value type where the contract method returns a reference (or
  the reverse), is still chosen, and the body is then an invalid program:
  `callvirt` needs an instance method, and `stloc` needs a value of the
  local's representation. The same holds for a parameter: a target
  `M(int)` chosen for a contract `M(object)` is passed a reference where
  it takes a value.
- Both bodies load the wrapped instance with `ldfld`
  (`AdapterFactory.MethodEmitter.cs:65-66`, `114-115`). For a struct
  instance (`CreateAdapter(5)`) that is a value, where `callvirt` and
  `MethodBase.Invoke(object, object[])` need a reference, so every body
  over a struct instance is an invalid program.

## Model

| member | source | states |
|---|---|---|
| `Types.PublicMethods` | AdapterFactory.MethodEmitter.cs:29 | exactly the type's public methods: every element is a public method of the type, and every public method of the type is included |
| `Linq.Where` | TypeReflector.cs:53-55 | every element kept satisfies the filter and comes from the source; every source element satisfying it is kept |
| `Linq.WhereConcat` | TypeReflector.cs:53-55 | filtering keeps enumeration order: filtering a concatenation is filtering each part in turn |
| `Linq.Distinct` | TypeReflector.cs:62-66 | the result contains exactly the elements of the input, each once |
| `Linq.DistinctPrefix` | TypeReflector.cs:62-66 | elements come out in the order of their first occurrence: the distinct elements of a prefix lead the result unchanged |
| `Linq.IndexOfFirst` | TypeReflector.cs:62-66 | no earlier element satisfies the predicate, and the one at the index does |
| `Linq.Preferred` | TypeReflector.cs:37-43 | an exact match wins whenever one exists; a loose result means there is no exact match; none exactly when nothing matches either way |
| `Linq.WhereHead` | TypeReflector.cs:53-55 | the head of a filtered sequence is the first element satisfying the filter; it is empty iff none does |
| `Linq.DistinctHead` | TypeReflector.cs:62-66 | `Distinct` keeps the first element in front |
| `Linq.FirstOfUnion` | TypeReflector.cs:37-43 | `FirstOrDefault(Union(exact matches, assignable matches))` is the first exact match, else the first assignable one, else none |
| `Linq.FirstWhere` | TypeReflector.cs:23-31 | `FirstOrDefault(Where(s, p))` is the first element satisfying `p` |
| `Linq.FirstInFiltered` | TypeReflector.cs:53-66 | filtering by name and then taking the first exact match finds the first element with both properties, at or before any given one |
| `Linq.WhereTwo` | TypeReflector.cs:28-31 | a filter keeps at least two elements iff two positions of the input satisfy it |
| `Linq.SingleMatch` | TypeReflector.cs:28-31 | no match iff nothing satisfies the predicate; ambiguous iff two positions do; otherwise the one element that does, equal to every element satisfying it |
| `TypeComparer.Equals` | TypeComparer.cs:20-42 | true iff the lists have the same length and identical types at every position |
| `TypeComparer.Assignable` | TypeComparer.cs:44-66 | true iff same length and `first[i].IsAssignableFrom(second[i])` at every position |
| `TypeComparer.SameTypesIsEquality` | TypeComparer.cs:20-42 | positional identity is list equality |
| `TypeComparer.SameTypesAreAssignable` | TypeComparer.cs:44-66 | for a reflexive assignability relation, identical lists are assignable, so every exact match is also an assignable one |
| `TypeComparer.AssignableIsDirectional` | TypeComparer.cs:57 | assignability is one-directional: `[object]` accepts `[string]` but not the other way round |
| `TypeReflector.GetField` | TypeReflector.cs:23-26 | none iff no field has the name; otherwise the first field with that name |
| `TypeReflector.GetProperty` | TypeReflector.cs:28-31 | no match iff no property has the name; an ambiguous match (`AmbiguousMatchException`) iff two do; otherwise the property with that name, equal to every property of that name |
| `TypeReflector.GetEvent` | TypeReflector.cs:83-86 | no match iff no event has the name; an ambiguous match iff two do; otherwise the event with that name, equal to every event of that name |
| `TypeReflector.GetConstructor` | TypeReflector.cs:33-44 | the first constructor whose parameters are exactly the argument types, else the first accepting them, else none |
| `TypeReflector.GetMethod` | TypeReflector.cs:51-67 | a method of the given name; the only one of that name when it is unique and no argument types are given; otherwise the exact-then-assignable choice among the methods of that name |
| `TypeReflector.GetMethodByName` | TypeReflector.cs:46-49 | the lookup with no argument types; the single method of that name whenever there is exactly one |
| `TypeReflector.GetMethodByNameOverloaded` | TypeReflector.cs:46-67 | with several or no methods of that name, a method is found iff a parameterless one of that name exists, and it is parameterless |
| `TypeReflector.GetMethodNone` | TypeReflector.cs:51-67 | not found iff the fast path does not apply and no method of that name takes parameters identical to, or assignable from, the argument types |
| `TypeReflector.NoneRulesOutAll` | TypeReflector.cs:59-66 | outside the fast path, "not found" rules out every method of that name |
| `TypeReflector.GetMethodPrefersExact` | TypeReflector.cs:59-66 | outside the fast path, when some method of that name takes exactly the argument types, the result does, and it is the first such |
| `TypeReflector.GetIndexer` | TypeReflector.cs:69-81 | the exact-then-assignable choice among properties named "Item"; a result is such a property, and it matches the argument types exactly or assignably |
| `MethodEmitter.SelectImplementation` | AdapterFactory.MethodEmitter.cs:29-41 | the first public same-named method of the instance type taking the contract's parameter types exactly, else the first whose parameters the contract's accept; it has the contract method's arity |
| `MethodEmitter.BindingFor` | AdapterFactory.MethodEmitter.cs:43-50 | a direct body targets a public method of the instance type with the contract method's name and arity |
| `MethodEmitter.EligibleIsSelected` | AdapterFactory.MethodEmitter.cs:29-43 | any public same-named method that matches exactly or assignably makes the selection succeed |
| `MethodEmitter.SelectedIsEligible` | AdapterFactory.MethodEmitter.cs:29-43 | a selected method is such a method |
| `MethodEmitter.DirectIffCandidate` | AdapterFactory.MethodEmitter.cs:43-50 | the body is direct iff the instance type has a public same-named method matching exactly or assignably |
| `MethodEmitter.SafeImpl` | AdapterFactory.MethodEmitter.cs:63-74 | the direct body loads the wrapped instance (of the field's type) and each argument (of its declared type) in position order, then makes exactly one call to the target with them; it is an invalid program unless the target is an instance method, the field's type is not a struct, and each argument is a value type exactly when the target's parameter in its place is |
| `MethodEmitter.EmitTypeArray` | AdapterFactory.MethodEmitter.cs:84-105 | after the lookup receiver, name and flags, the type array holds the contract method's parameter types |
| `MethodEmitter.EmitArgumentArray` | AdapterFactory.MethodEmitter.cs:117-134 | the argument array holds each argument in position order, boxed exactly when its type is a value type |
| `MethodEmitter.UnsafeImpl` | AdapterFactory.MethodEmitter.cs:76-146 | the reflective body invokes the method found by name and parameter types on the field's type, with the wrapped instance and the argument array, and unboxes a value-type result; when the field's type is a struct, `MethodBase.Invoke` is passed a value where it takes an object, and the body is an invalid program |
| `MethodEmitter.RunWithTail` | AdapterFactory.MethodEmitter.cs:52-58 | the epilogue returns the single value left on the stack for a non-void method, provided the result local can store it (value type or reference as the return type says), and needs an empty stack for a void one |
| `MethodEmitter.DirectRuns` | AdapterFactory.MethodEmitter.cs:43-58 | a direct body performs the forwarded call and returns its result iff the target is an instance method, the wrapped instance is not a struct, each parameter agrees with the contract's in being a value type or a reference, and the return agrees with the contract's in kind and representation; otherwise it is an invalid program |
| `MethodEmitter.ReflectiveRuns` | AdapterFactory.MethodEmitter.cs:47-58 | the reflective body as written is correct for a non-void method over a reference instance, and invalid for a void method or a struct instance |
| `MethodEmitter.ReflectiveDiscardRuns` | AdapterFactory.MethodEmitter.cs:47-58 | with the result discarded, the reflective body of a void method is the forwarded call over a reference instance, and invalid over a struct instance |
| `MethodEmitter.Emit` | AdapterFactory.MethodEmitter.cs:15-61 | the emitted body, by binding: a direct body forwards iff its target is a non-static method on a reference instance whose parameters and return agree with the contract's in representation (and in kind for the return), else it is invalid; a reflective body forwards iff the contract method is non-void and the instance is not a struct |
| `MethodEmitter.EmitCorrected` | AdapterFactory.MethodEmitter.cs:15-61 | every reflective body over a reference instance performs exactly the forwarded call and returns its result; a direct body does so under the same condition as in `MethodEmitter.Emit`, and is invalid otherwise |
| `AdapterFactory.ValidateContract` | AdapterFactory.cs:79-93 | accepted iff non-null, not a value type and not a sealed class; errors in source order, a struct reported as a value type |
| `AdapterFactory.CanOverrideMethod` | AdapterFactory.cs:275-281 | a method the adapter may override: present, not private, and abstract or virtual |
| `AdapterFactory.ContractMethods` | AdapterFactory.cs:220-232 | every implemented method is a contract method that, for a class, `CanOverrideMethod` accepts and, for an interface, is public and not special-name |
| `AdapterFactory.ContractProperties` | AdapterFactory.cs:234-244 | an interface's properties are all implemented; a class's implemented properties pass the getter-else-setter overridability rule |
| `AdapterFactory.ContractMethodsExactly` | AdapterFactory.cs:220-232 | a contract method is implemented iff, for a class, `CanOverrideMethod` holds (non-private, abstract or virtual), and, for an interface, it is public and not special-name |
| `AdapterFactory.ContractPropertiesExactly` | AdapterFactory.cs:234-244 | every interface property is implemented; a class property iff its public getter is overridable when readable, else its public setter when writable |
| `AdapterFactory.BuildAdapterType` | AdapterFactory.cs:174-188 | the new type has the given name and the proxy field iff proxied, derives from a class contract or from object implementing an interface contract, and has the constructor first |
| `AdapterFactory.GenerationOrder` | AdapterFactory.cs:182-186 | the generated members are the constructor, then the methods, the properties and the events, one for each |
| `AdapterFactory.MethodMemberAt` | AdapterFactory.cs:178-184 | the k-th generated method implements the k-th contract method through the proxy when one is set, else by the MethodEmitter binding against the instance type |
| `AdapterFactory.PropertyMemberAt` | AdapterFactory.cs:246-258 | the k-th property member is an indexer iff the property has index parameters, with a getter iff readable with a public getter and a setter iff writable with a public setter |
| `AdapterFactory.EventMemberAt` | AdapterFactory.EventEmitter.cs:19-50 | the k-th event member has an add and a remove accessor exactly where the contract event has public ones |
| `AdapterFactory.AdapterTypeName` | AdapterFactory.cs:166-168 | the instance type's full name followed by a suffix five or seven characters long ("Proxy" or "Adapter") |
| `AdapterFactory.AdapterTypeNameSuffix` | AdapterFactory.cs:166-168 | an adapter type name ends in "Proxy" iff it was made with a proxy set |
| `AdapterFactory.AdapterTypeNameInjective` | AdapterFactory.cs:166-170 | two adapter names are equal iff the instance types' full names and the proxy settings are |
| `AdapterFactory.CachedOrBuilt` | AdapterFactory.cs:170-191 | the type cached under the adapter name when there is one; otherwise a new type with that name, the contract, the instance type, and the proxy field iff proxied |
| `AdapterFactory.CacheReturnsSameType` | AdapterFactory.cs:164-191 | once cached, any instance type with the same full name gets the same type under the same proxy setting, and a differently named one under the other setting |
| `AdapterFactory.ModuleRegistry.GetAdapterModule` | AdapterFactory.cs:194-210 | the module of a contract is created, empty, on first request; later requests return the same module and leave the dictionary unchanged |
| `AdapterFactory.Adapter.constructor` | AdapterEmitter.cs:51-60 | the generated constructor stores the wrapped instance; the proxy field starts null |
| `AdapterFactory.AdapterFactory.New` | AdapterFactory.cs:77-97 | the validation errors in order and no module created; otherwise a factory for the contract bound to the contract's module, with no proxy |
| `AdapterFactory.AdapterFactory.GetAdapterType` | AdapterFactory.cs:162-192 | the type named for the instance type and proxy setting: the cached one when present, else a newly built one added to the module; it has the proxy field iff a proxy is set |
| `AdapterFactory.AdapterFactory.CreateAdapter` | AdapterFactory.cs:116-134 | null is an error and changes nothing; otherwise a new adapter of the type `GetAdapterType` gives, wrapping the value, whose proxy field is the factory's proxy on proxied types and unset otherwise |
| `AdapterProxy.ArgumentTypes` | AdapterProxy.cs:32 | the run-time type of each argument in order; a null argument is an error naming its position |
| `AdapterProxy.Invoke` | AdapterProxy.cs:28-41 | forwards the same arguments to the method `GetMethod` finds on the instance's run-time type for the name and argument types; a missing method is a `MissingMethod` error |
| `AdapterProxy.InvokePrefersExact` | AdapterProxy.cs:30-40 | with no fast path, a method whose parameters are exactly the arguments' run-time types is chosen whenever one exists |
| `AdapterProxy.InvokeMissing` | AdapterProxy.cs:33-38 | the method is reported missing iff no method of that name accepts the argument types exactly or assignably and the fast path does not apply |
| `AdapterProxy.PropertyFor` | AdapterProxy.cs:45-52 | `MissingProperty` iff the run-time type has no property of the name, `AmbiguousMember` iff it has two; otherwise that property, equal to every property of the name |
| `AdapterProxy.GetPropertyValue` | AdapterProxy.cs:43-55 | the lookup's error for a missing or ambiguous property; otherwise a value iff the property has a get accessor, and `NoGetter` (the `ArgumentException` of `GetValue`) if not |
| `AdapterProxy.SetPropertyValue` | AdapterProxy.cs:57-69 | stores the value in the named property and nothing else when it has a set accessor; a following get returns it when the property has a getter, and other properties read as before; a missing or ambiguous property, or one without a setter, is an error and changes nothing |
| `AdapterProxy.IndexerFor` | AdapterProxy.cs:73-81 | the indexer `GetIndexer` finds for the arguments' types, an "Item" property of the run-time type; else the null-argument or missing-indexer error |
| `AdapterProxy.GetIndexedValue` | AdapterProxy.cs:71-84 | the lookup's error when no indexer is found; otherwise a value iff the indexer has a get accessor, and `NoGetter` if not |
| `AdapterProxy.SetIndexedValue` | AdapterProxy.cs:86-99 | stores the value at those arguments and nothing else when the indexer has a set accessor; a following get with the same arguments returns it when there is a getter; every error, including a missing setter, changes nothing |
| `AdapterProxy.RemoveLast` | AdapterProxy.cs:126 | removing an absent handler leaves the list unchanged; otherwise the list shrinks by one |
| `AdapterProxy.RemoveLastShape` | AdapterProxy.cs:126 | the occurrence removed is the last one and the others keep their order |
| `AdapterProxy.RemoveLastMultiset` | AdapterProxy.cs:126 | exactly one copy of the handler is removed, when there is one |
| `AdapterProxy.UnhookUndoesHook` | AdapterProxy.cs:101-127 | removing the handler just added restores the invocation list |
| `AdapterProxy.EventFor` | AdapterProxy.cs:103-110 | `MissingEvent` iff the run-time type has no event of the name, `AmbiguousMember` iff it has two; otherwise that event, equal to every event of the name |
| `AdapterProxy.Hook` | AdapterProxy.cs:101-113 | appends the handler to the named event's invocation list and changes nothing else; a missing or ambiguous event, or one without a public add method (`InvalidOperationException`), is an error and changes nothing |
| `AdapterProxy.Unhook` | AdapterProxy.cs:115-127 | removes the handler's last occurrence from the named event's list and changes nothing else; a missing or ambiguous event, or one without a public remove method, is an error and changes nothing |

## Left out

- Reflection.Emit and IL generation itself: a body is a sequence of logical steps, each corresponding to a short IL sequence, and a type is an `AdapterType` value. The dynamic assembly, module creation and `SaveAssembly` are not modelled.
- The property, indexer and event emitters (direct and proxy), `DirectEmitter`, `ProxyEmitter`, `MemberEmitter` and `AdapterEmitter`: they are only routing. Their rule is stated once, in `AdapterFactory.RouteFor` and `AdapterFactory.AccessorRoute`: a present accessor goes through the proxy, or through the MethodEmitter binding.
- The proxy-mode IL that packs arguments for `IAdapterProxy`: a proxied accessor is only marked `ThroughProxy`.
- The double-checked lock in `GetAdapterModule`: concurrency is not modelled, and the static dictionary is an explicit `ModuleRegistry` object.
- BindingFlags semantics: each `TypeInfo` lists what the reflection calls enumerate. For example, the class-contract `GetMethods(Public | NonPublic)` and `GetProperties(Public | NonPublic)` are taken to return the lists given. `Type.IsAssignableFrom` is an abstract relation passed as a parameter.
- `TypeComparer.GetHashCode`, which nothing in the lookups uses.
- The generic `AdapterFactory<T>` wrapper, and all commented-out code.
- Exception message texts: errors carry the member name and the type instead.
- `Activator.CreateInstance`, boxing at run time, `MethodBase.Invoke`, `PropertyInfo.GetValue`/`SetValue` and `EventInfo.AddEventHandler`/`RemoveEventHandler` are not modelled as code, apart from the accessor checks that make them throw. A property or indexer is a stored value, and an event is an invocation list.
- `AdapterProxy.Invoke`: returns the call to be made rather than its result. The failure of `MethodBase.Invoke` when the fast path picks a method taking parameters is not modelled.
- `AdapterProxy.Invoke`: the instance is never null, because the adapters pass their non-null wrapped instance. A null instance would throw a `NullReferenceException` in the source.
- `MethodEmitter.DirectRuns`: compares only whether a parameter, the return and the wrapped instance are value types or references. A direct body between two different value types (an `int` target for a `long` contract method, or an `int` argument for a `long` parameter) counts as valid.
- `MethodEmitter.Emit`: its direct-body outcome shares the `MethodEmitter.DirectRuns` limit: two different value types are not told apart.
- `MethodEmitter.EmitCorrected`: the same limit as `MethodEmitter.DirectRuns` for direct bodies.
- `AdapterFactory.AdapterFactory.GetAdapterType`: takes the instance's run-time type rather than the instance. The `NullReferenceException` that `instance.GetType()` raises for a null instance is not modelled; `CreateAdapter` rejects null before calling it.
- `MethodEmitter.UnsafeImpl`: the run-time `GetMethod` may return null, and the null-dereference that then follows is not modelled. The found method is a symbolic operand.
- `AdapterFactory.AdapterFactory.New`: requires that a module already registered for the contract is consistent, meaning every cached type is stored under its own name, with the proxy field exactly when its name ends in "Proxy". This invariant holds for every module that factories fill through `GetAdapterType`.

## Findings

| source | as written | input that shows it | evidently intended | confidence | as-written member | corrected member |
|---|---|---|---|---|---|---|
| AdapterFactory.MethodEmitter.cs:136-146 | the reflective body of a void contract method leaves the `object` returned by `MethodBase.Invoke` on the evaluation stack at `ret`, which is an invalid program | an interface contract with `void Run()` wrapping an instance of a class that has no public `Run` method | pop the value (`OpCodes.Pop`) when the contract method returns void, so the body only forwards the call | not executed | `MethodEmitter.Emit` (with `MethodEmitter.ReflectiveRuns`) | `MethodEmitter.EmitCorrected` |
