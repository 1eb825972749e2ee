/**
 * AdapterFactory: validates the contract type, keeps one dynamic module per
 * contract, names and caches the adapter type generated for each run-time
 * type of wrapped instance, decides which contract members the adapter
 * overrides and in which order, and wires the interception proxy into
 * proxied adapters.
 *
 * The generated type is described by an AdapterType value: its name, base
 * type and interfaces, whether it has the proxy field, and the members it
 * implements with the route each accessor takes (a direct or reflective
 * body chosen by MethodEmitter, or a call through the proxy).
 */
module AdapterFactory {
  import opened Wrappers
  import opened Types
  import opened Linq
  import opened MethodEmitter

  const ProxySuffix := "Proxy"
  const AdapterSuffix := "Adapter"

  /** typeof(object), the base type of an adapter for an interface contract. */
  const ObjectType := Type("System.Object", false, true, false)

  // ---------------------------------------------------------------------
  // Contract validation
  // ---------------------------------------------------------------------

  datatype FactoryError =
    | ArgumentNull(paramName: string)
    | ValueTypeContract(contract: Type)
    | SealedContract(contract: Type)

  /**
   * The constructor's checks, in order: a null type, then a value type,
   * then a sealed class. A struct is sealed too, and is reported as a value
   * type. The null check names the parameter "adapterType".
   */
  function ValidateContract(proxyType: Option<Type>): (r: Result<Type, FactoryError>)
    ensures r.Ok? <==> proxyType.Some? && !proxyType.value.isValueType
                       && !(proxyType.value.isClass && proxyType.value.isSealed)
    ensures r.Ok? ==> r.value == proxyType.value
    ensures proxyType.None? ==> r == Err(ArgumentNull("adapterType"))
    ensures proxyType.Some? && proxyType.value.isValueType ==> r == Err(ValueTypeContract(proxyType.value))
    ensures r.Err? && !r.error.ArgumentNull? && !r.error.ValueTypeContract? ==>
              r == Err(SealedContract(proxyType.value)) && proxyType.value.isClass && proxyType.value.isSealed
  {
    match proxyType
    case None => Err(ArgumentNull("adapterType"))
    case Some(t) =>
      if t.isValueType then Err(ValueTypeContract(t))
      else if t.isClass && t.isSealed then Err(SealedContract(t))
      else Ok(t)
  }

  // ---------------------------------------------------------------------
  // Which contract members the adapter implements
  // ---------------------------------------------------------------------

  /** A method the adapter may override: present, not private, and abstract or virtual. */
  predicate CanOverrideMethod(candidate: Option<MethodInfo>)
  {
    candidate.Some? && candidate.value.access != Private && (candidate.value.isAbstract || candidate.value.isVirtual)
  }

  function Overridable(): MethodInfo -> bool
  {
    (m: MethodInfo) => CanOverrideMethod(Some(m))
  }

  function NotSpecialName(): MethodInfo -> bool
  {
    (m: MethodInfo) => !m.isSpecialName
  }

  /**
   * A class property is implemented according to its getter when it is
   * readable, else according to its setter when it is writable, else not
   * at all. The accessors are the public ones, so a readable property with
   * a non-public getter is left out whatever its setter.
   */
  predicate PropertyEligible(p: PropertyInfo)
  {
    if p.canRead then CanOverrideMethod(p.getter)
    else if p.canWrite then CanOverrideMethod(p.setter)
    else false
  }

  function Eligible(): PropertyInfo -> bool
  {
    (p: PropertyInfo) => PropertyEligible(p)
  }

  /** The methods EmitAdapterMethods implements: overridable ones of a class, public non-special-name ones of an interface. */
  function ContractMethods(contract: TypeInfo): (r: seq<MethodInfo>)
    ensures forall i :: 0 <= i < |r| ==>
              r[i] in contract.methods
              && (contract.handle.isClass ==> CanOverrideMethod(Some(r[i])))
              && (!contract.handle.isClass ==> r[i].access == Public && !r[i].isSpecialName)
  {
    if contract.handle.isClass then Where(contract.methods, Overridable())
    else Where(PublicMethods(contract), NotSpecialName())
  }

  /** The properties EmitAdapterProperties implements. */
  function ContractProperties(contract: TypeInfo): (r: seq<PropertyInfo>)
    ensures forall i :: 0 <= i < |r| ==> r[i] in contract.properties && (contract.handle.isClass ==> PropertyEligible(r[i]))
    ensures !contract.handle.isClass ==> r == contract.properties
  {
    if contract.handle.isClass then Where(contract.properties, Eligible()) else contract.properties
  }

  lemma ContractMethodsExactly(contract: TypeInfo, m: MethodInfo)
    ensures m in ContractMethods(contract) <==>
              m in contract.methods
              && if contract.handle.isClass then CanOverrideMethod(Some(m))
                 else m.access == Public && !m.isSpecialName
  {
    var r := ContractMethods(contract);
    if m in r {
      var k :| 0 <= k < |r| && r[k] == m;
      if !contract.handle.isClass {
        assert NotSpecialName()(r[k]);
      } else {
        assert Overridable()(r[k]);
      }
    }
    if m in contract.methods {
      var i :| 0 <= i < |contract.methods| && contract.methods[i] == m;
      if contract.handle.isClass {
        if CanOverrideMethod(Some(m)) {
          assert Overridable()(contract.methods[i]);
        }
      } else if m.access == Public && !m.isSpecialName {
        var publicMethods := PublicMethods(contract);
        assert m in publicMethods;
        var j :| 0 <= j < |publicMethods| && publicMethods[j] == m;
        assert NotSpecialName()(publicMethods[j]);
      }
    }
  }

  lemma ContractPropertiesExactly(contract: TypeInfo, p: PropertyInfo)
    ensures p in ContractProperties(contract) <==>
              p in contract.properties
              && (contract.handle.isClass ==>
                    if p.canRead then CanOverrideMethod(p.getter)
                    else p.canWrite && CanOverrideMethod(p.setter))
  {
    var r := ContractProperties(contract);
    if contract.handle.isClass {
      if p in r {
        var k :| 0 <= k < |r| && r[k] == p;
        assert Eligible()(r[k]);
      }
      if p in contract.properties && PropertyEligible(p) {
        var i :| 0 <= i < |contract.properties| && contract.properties[i] == p;
        assert Eligible()(contract.properties[i]);
      }
    }
  }

  // ---------------------------------------------------------------------
  // The generated type
  // ---------------------------------------------------------------------

  /** How one generated accessor reaches the wrapped instance. */
  datatype Route = Bound(binding: Binding) | ThroughProxy

  datatype Generated =
    | Constructor(fieldType: Type)
    | MethodImpl(contractMethod: MethodInfo, route: Route)
    | PropertyImpl(property: PropertyInfo, getter: Option<Route>, setter: Option<Route>)
    | IndexerImpl(property: PropertyInfo, getter: Option<Route>, setter: Option<Route>)
    | EventImpl(contractEvent: EventInfo, adder: Option<Route>, remover: Option<Route>)

  datatype AdapterType = AdapterType(
    name: string,
    contract: Type,
    instanceType: Type,
    baseType: Type,
    interfaces: seq<Type>,
    hasProxyField: bool,
    members: seq<Generated>)

  /**
   * Every accessor goes through the proxy on a proxied adapter, and
   * through the MethodEmitter rule (direct or reflective body) otherwise.
   */
  function RouteFor(instanceType: TypeInfo, isAssignableFrom: AssignableFrom, proxied: bool, accessor: MethodInfo): Route
  {
    if proxied then ThroughProxy else Bound(BindingFor(instanceType, isAssignableFrom, accessor))
  }

  function AccessorRoute(instanceType: TypeInfo, isAssignableFrom: AssignableFrom, proxied: bool, accessor: Option<MethodInfo>): Option<Route>
  {
    match accessor
    case None => None
    case Some(a) => Some(RouteFor(instanceType, isAssignableFrom, proxied, a))
  }

  /** A property with index parameters becomes an indexer; accessors exist only when readable / writable. */
  function PropertyMember(instanceType: TypeInfo, isAssignableFrom: AssignableFrom, proxied: bool, p: PropertyInfo): Generated
  {
    var getter := AccessorRoute(instanceType, isAssignableFrom, proxied, if p.canRead then p.getter else None);
    var setter := AccessorRoute(instanceType, isAssignableFrom, proxied, if p.canWrite then p.setter else None);
    if |p.indexParameterTypes| > 0 then IndexerImpl(p, getter, setter) else PropertyImpl(p, getter, setter)
  }

  function EventMember(instanceType: TypeInfo, isAssignableFrom: AssignableFrom, proxied: bool, e: EventInfo): Generated
  {
    EventImpl(e, AccessorRoute(instanceType, isAssignableFrom, proxied, e.adder),
                 AccessorRoute(instanceType, isAssignableFrom, proxied, e.remover))
  }

  /** One implementation per contract method, in order. */
  function MethodMembers(contract: TypeInfo, instanceType: TypeInfo, isAssignableFrom: AssignableFrom, proxied: bool): seq<Generated>
  {
    Select(ContractMethods(contract), (m: MethodInfo) => MethodImpl(m, RouteFor(instanceType, isAssignableFrom, proxied, m)))
  }

  /** One property or indexer per implemented contract property, in order. */
  function PropertyMembers(contract: TypeInfo, instanceType: TypeInfo, isAssignableFrom: AssignableFrom, proxied: bool): seq<Generated>
  {
    Select(ContractProperties(contract), (p: PropertyInfo) => PropertyMember(instanceType, isAssignableFrom, proxied, p))
  }

  /** One event per contract event, in order. */
  function EventMembers(contract: TypeInfo, instanceType: TypeInfo, isAssignableFrom: AssignableFrom, proxied: bool): seq<Generated>
  {
    Select(contract.events, (e: EventInfo) => EventMember(instanceType, isAssignableFrom, proxied, e))
  }

  /**
   * The type GetAdapterType defines on a cache miss: derived from a class
   * contract or from object implementing an interface contract; the
   * constructor first, then the methods, the properties and indexers, and
   * the events, each group in enumeration order.
   */
  function BuildAdapterType(name: string, contract: TypeInfo, instanceType: TypeInfo,
                            isAssignableFrom: AssignableFrom, proxied: bool): (t: AdapterType)
    ensures t.name == name && t.contract == contract.handle && t.instanceType == instanceType.handle
    ensures t.hasProxyField == proxied
    ensures contract.handle.isClass ==> t.baseType == contract.handle && t.interfaces == []
    ensures !contract.handle.isClass ==> t.baseType == ObjectType && t.interfaces == [contract.handle]
    ensures |t.members| >= 1 && t.members[0] == Constructor(instanceType.handle)
  {
    AdapterType(name, contract.handle, instanceType.handle,
                if contract.handle.isClass then contract.handle else ObjectType,
                if contract.handle.isClass then [] else [contract.handle],
                proxied,
                [Constructor(instanceType.handle)]
                + MethodMembers(contract, instanceType, isAssignableFrom, proxied)
                + PropertyMembers(contract, instanceType, isAssignableFrom, proxied)
                + EventMembers(contract, instanceType, isAssignableFrom, proxied))
  }

  /**
   * Generation order: the constructor first, then the methods, the
   * properties and the events, one generated member for each.
   */
  lemma {:induction false} GenerationOrder(name: string, contract: TypeInfo, instanceType: TypeInfo,
                                           isAssignableFrom: AssignableFrom, proxied: bool)
    ensures var t := BuildAdapterType(name, contract, instanceType, isAssignableFrom, proxied);
            var ms := MethodMembers(contract, instanceType, isAssignableFrom, proxied);
            var ps := PropertyMembers(contract, instanceType, isAssignableFrom, proxied);
            |t.members| == 1 + |ContractMethods(contract)| + |ContractProperties(contract)| + |contract.events|
            && t.members[0] == Constructor(instanceType.handle)
            && t.members[1..1 + |ms|] == ms
            && t.members[1 + |ms|..1 + |ms| + |ps|] == ps
            && t.members[1 + |ms| + |ps|..] == EventMembers(contract, instanceType, isAssignableFrom, proxied)
  {
    var t := BuildAdapterType(name, contract, instanceType, isAssignableFrom, proxied);
    var head := [Constructor(instanceType.handle)];
    var ms := MethodMembers(contract, instanceType, isAssignableFrom, proxied);
    var ps := PropertyMembers(contract, instanceType, isAssignableFrom, proxied);
    var es := EventMembers(contract, instanceType, isAssignableFrom, proxied);
    assert t.members == head + ms + ps + es;
    ConcatenationSlices(head, ms, ps, es);
  }

  lemma ConcatenationSlices<T>(a: seq<T>, b: seq<T>, c: seq<T>, d: seq<T>)
    ensures var s := a + b + c + d;
            |s| == |a| + |b| + |c| + |d| && s[..|a|] == a && s[|a|..|a| + |b|] == b
            && s[|a| + |b|..|a| + |b| + |c|] == c && s[|a| + |b| + |c|..] == d
  {
    var s := a + b + c + d;
    assert s == a + (b + (c + d));
    assert s[|a|..] == b + (c + d);
    assert s[|a| + |b|..] == c + d;
  }

  /** The k-th generated method implements the k-th implemented contract method. */
  lemma MethodMemberAt(contract: TypeInfo, instanceType: TypeInfo, isAssignableFrom: AssignableFrom, proxied: bool, k: nat)
    requires k < |ContractMethods(contract)|
    ensures var m := ContractMethods(contract)[k];
            MethodMembers(contract, instanceType, isAssignableFrom, proxied)[k]
              == MethodImpl(m, if proxied then ThroughProxy else Bound(BindingFor(instanceType, isAssignableFrom, m)))
  {
  }

  /**
   * The k-th generated property member is for the k-th implemented
   * property, an indexer exactly when that property has index parameters,
   * with a getter exactly when it is readable and has a public getter and
   * a setter exactly when it is writable and has a public setter.
   */
  lemma PropertyMemberAt(contract: TypeInfo, instanceType: TypeInfo, isAssignableFrom: AssignableFrom, proxied: bool, k: nat)
    requires k < |ContractProperties(contract)|
    ensures var p := ContractProperties(contract)[k];
            var g := PropertyMembers(contract, instanceType, isAssignableFrom, proxied)[k];
            (g.PropertyImpl? || g.IndexerImpl?) && g.property == p
            && (g.IndexerImpl? <==> |p.indexParameterTypes| > 0)
            && (g.getter.Some? <==> p.canRead && p.getter.Some?)
            && (g.setter.Some? <==> p.canWrite && p.setter.Some?)
  {
  }

  /** The k-th generated event is for the k-th contract event, with an adder and remover where it has them. */
  lemma EventMemberAt(contract: TypeInfo, instanceType: TypeInfo, isAssignableFrom: AssignableFrom, proxied: bool, k: nat)
    requires k < |contract.events|
    ensures var e := contract.events[k];
            var g := EventMembers(contract, instanceType, isAssignableFrom, proxied)[k];
            g.EventImpl? && g.contractEvent == e
            && (g.adder.Some? <==> e.adder.Some?) && (g.remover.Some? <==> e.remover.Some?)
  {
  }

  // ---------------------------------------------------------------------
  // Naming
  // ---------------------------------------------------------------------

  predicate EndsWith(s: string, suffix: string)
  {
    |suffix| <= |s| && s[|s| - |suffix|..] == suffix
  }

  /** The instance type's full name followed by "Proxy" or "Adapter". */
  function AdapterTypeName(instanceType: Type, proxied: bool): (name: string)
    ensures |name| == |instanceType.fullName| + |ProxySuffix| + (if proxied then 0 else 2)
    ensures name[..|instanceType.fullName|] == instanceType.fullName
  {
    instanceType.fullName + (if proxied then ProxySuffix else AdapterSuffix)
  }

  /** A name ends in "Proxy" exactly when it was made for a proxied adapter. */
  lemma AdapterTypeNameSuffix(instanceType: Type, proxied: bool)
    ensures EndsWith(AdapterTypeName(instanceType, proxied), ProxySuffix) <==> proxied
  {
    var name := AdapterTypeName(instanceType, proxied);
    var n := |name|;
    if proxied {
      assert name[n - 5..] == ProxySuffix;
    } else {
      assert name[n - 5..] == "apter";
      assert name[n - 5..][0] != ProxySuffix[0];
    }
  }

  /**
   * Names are equal exactly when the full names and the proxy settings
   * are: proxied and unproxied adapters never share a cache entry, and
   * neither do instance types with different full names.
   */
  lemma AdapterTypeNameInjective(first: Type, firstProxied: bool, second: Type, secondProxied: bool)
    ensures AdapterTypeName(first, firstProxied) == AdapterTypeName(second, secondProxied) <==>
              first.fullName == second.fullName && firstProxied == secondProxied
  {
    var a, b := AdapterTypeName(first, firstProxied), AdapterTypeName(second, secondProxied);
    if a == b {
      AdapterTypeNameSuffix(first, firstProxied);
      AdapterTypeNameSuffix(second, secondProxied);
      var suffix := if firstProxied then ProxySuffix else AdapterSuffix;
      assert a[..|a| - |suffix|] == first.fullName;
      assert b[..|b| - |suffix|] == second.fullName;
    }
  }

  // ---------------------------------------------------------------------
  // Modules, the cache, and the factory
  // ---------------------------------------------------------------------

  /** The dynamic module of one contract type, holding the adapter types defined so far, by name. */
  class DynamicModule {
    const contractType: Type
    var types: map<string, AdapterType>

    /** Each type is stored under its own name, implements this module's contract, and has the proxy field exactly when its name says so. */
    ghost predicate Valid()
      reads this
    {
      forall name :: name in types ==>
        types[name].name == name && types[name].contract == contractType
        && types[name].hasProxyField == EndsWith(name, ProxySuffix)
    }

    constructor (contractType: Type)
      ensures this.contractType == contractType && types == map[] && Valid()
    {
      this.contractType := contractType;
      types := map[];
    }
  }

  /** The static dictionary from contract type to dynamic module that every factory shares. */
  class ModuleRegistry {
    var modules: map<Type, DynamicModule>

    ghost predicate Valid()
      reads this
    {
      forall t :: t in modules ==> modules[t].contractType == t
    }

    constructor ()
      ensures modules == map[] && Valid()
    {
      modules := map[];
    }

    /**
     * The module for a contract type, created with no types on first
     * request; later requests return that same module and leave the
     * dictionary as it is.
     */
    method GetAdapterModule(adapterType: Type) returns (contractModule: DynamicModule)
      requires Valid()
      modifies this
      ensures Valid()
      ensures adapterType in modules && contractModule == modules[adapterType] && contractModule.contractType == adapterType
      ensures adapterType in old(modules) ==> contractModule == old(modules)[adapterType] && modules == old(modules)
      ensures adapterType !in old(modules) ==>
                fresh(contractModule) && contractModule.types == map[] && modules == old(modules)[adapterType := contractModule]
    {
      if adapterType !in modules {
        var dynamicModule := new DynamicModule(adapterType);
        modules := modules[adapterType := dynamicModule];
      }
      contractModule := modules[adapterType];
    }
  }

  /** What the cache hands out for an instance type: the type already defined under its adapter name, or a new one. */
  function CachedOrBuilt(types: map<string, AdapterType>, contract: TypeInfo, instanceType: TypeInfo,
                         isAssignableFrom: AssignableFrom, proxied: bool): (t: AdapterType)
    ensures var name := AdapterTypeName(instanceType.handle, proxied);
            (name in types ==> t == types[name])
            && (name !in types ==> t.name == name && t.contract == contract.handle && t.hasProxyField == proxied
                                   && t.instanceType == instanceType.handle)
  {
    var name := AdapterTypeName(instanceType.handle, proxied);
    if name in types then types[name] else BuildAdapterType(name, contract, instanceType, isAssignableFrom, proxied)
  }

  /**
   * Once a type is cached, every instance type with the same full name
   * gets that same type under the same proxy setting, and the other
   * setting gets a different one.
   */
  lemma CacheReturnsSameType(types: map<string, AdapterType>, contract: TypeInfo,
                             first: TypeInfo, second: TypeInfo, isAssignableFrom: AssignableFrom,
                             proxied: bool, secondProxied: bool)
    requires forall name :: name in types ==> types[name].name == name
    requires first.handle.fullName == second.handle.fullName
    ensures var t := CachedOrBuilt(types, contract, first, isAssignableFrom, proxied);
            var cached := types[t.name := t];
            (secondProxied == proxied ==> CachedOrBuilt(cached, contract, second, isAssignableFrom, secondProxied) == t)
            && (secondProxied != proxied ==> CachedOrBuilt(cached, contract, second, isAssignableFrom, secondProxied).name != t.name)
  {
    AdapterTypeNameInjective(first.handle, proxied, second.handle, secondProxied);
    var name := AdapterTypeName(first.handle, proxied);
    var t := CachedOrBuilt(types, contract, first, isAssignableFrom, proxied);
    assert t.name == name;
  }

  /** An interception proxy (an IAdapterProxy reference). */
  datatype ProxyHandle = ProxyHandle(identity: nat)

  /** An instance of a generated adapter type: the wrapped instance and, on proxied types, the proxy field. */
  class Adapter {
    const adapterType: AdapterType
    const wrapped: Instance
    var proxy: Option<ProxyHandle>

    constructor (adapterType: AdapterType, wrapped: Instance)
      ensures this.adapterType == adapterType && this.wrapped == wrapped && proxy == None
    {
      this.adapterType := adapterType;
      this.wrapped := wrapped;
      proxy := None;
    }
  }

  class AdapterFactory {
    const proxyType: TypeInfo
    const dynamicModule: DynamicModule
    const isAssignableFrom: AssignableFrom
    /** The settable AdapterProxy property; None is null. */
    var adapterProxy: Option<ProxyHandle>

    ghost predicate Valid()
      reads this, dynamicModule
    {
      dynamicModule.contractType == proxyType.handle && dynamicModule.Valid()
    }

    constructor Init(proxyType: TypeInfo, dynamicModule: DynamicModule, isAssignableFrom: AssignableFrom)
      ensures this.proxyType == proxyType && this.dynamicModule == dynamicModule
      ensures this.isAssignableFrom == isAssignableFrom && adapterProxy == None
    {
      this.proxyType := proxyType;
      this.dynamicModule := dynamicModule;
      this.isAssignableFrom := isAssignableFrom;
      adapterProxy := None;
    }

    /**
     * new AdapterFactory(proxyType): the validation errors in order, and
     * otherwise a factory for that contract bound to the contract's module,
     * with no proxy.
     */
    static method New(registry: ModuleRegistry, proxyType: Option<TypeInfo>, isAssignableFrom: AssignableFrom)
      returns (r: Result<AdapterFactory, FactoryError>)
      requires registry.Valid()
      requires proxyType.Some? && proxyType.value.handle in registry.modules ==>
                 registry.modules[proxyType.value.handle].Valid()
      modifies registry
      ensures registry.Valid()
      ensures var v := ValidateContract(if proxyType.Some? then Some(proxyType.value.handle) else None);
              (v.Err? ==> r == Err(v.error) && registry.modules == old(registry.modules))
              && (v.Ok? ==> r.Ok? && fresh(r.value) && r.value.proxyType == proxyType.value
                            && proxyType.value.handle in registry.modules
                            && r.value.dynamicModule == registry.modules[proxyType.value.handle]
                            && r.value.isAssignableFrom == isAssignableFrom
                            && r.value.adapterProxy == None && r.value.Valid())
    {
      var v := ValidateContract(if proxyType.Some? then Some(proxyType.value.handle) else None);
      if v.Err? {
        return Err(v.error);
      }
      var contractModule := registry.GetAdapterModule(proxyType.value.handle);
      var factory := new AdapterFactory.Init(proxyType.value, contractModule, isAssignableFrom);
      r := Ok(factory);
    }

    /**
     * The adapter type for an instance's run-time type: looked up by name in
     * the contract's module, and built and added only when absent.
     */
    method GetAdapterType(instanceType: TypeInfo) returns (t: AdapterType)
      requires Valid()
      modifies dynamicModule
      ensures Valid()
      ensures t == CachedOrBuilt(old(dynamicModule.types), proxyType, instanceType, isAssignableFrom, adapterProxy.Some?)
      ensures t.name == AdapterTypeName(instanceType.handle, adapterProxy.Some?)
      ensures t.hasProxyField == adapterProxy.Some?
      ensures dynamicModule.types == old(dynamicModule.types)[t.name := t]
    {
      var typeName := AdapterTypeName(instanceType.handle, adapterProxy.Some?);
      AdapterTypeNameSuffix(instanceType.handle, adapterProxy.Some?);
      if typeName in dynamicModule.types {
        t := dynamicModule.types[typeName];
      } else {
        t := BuildAdapterType(typeName, proxyType, instanceType, isAssignableFrom, adapterProxy.Some?);
        dynamicModule.types := dynamicModule.types[typeName := t];
      }
    }

    /**
     * An adapter around a non-null instance, of the type GetAdapterType
     * hands out; its proxy field is set only on a type whose name ends in
     * "Proxy", which makes it the factory's proxy on proxied adapters.
     */
    method CreateAdapter(value: Instance?) returns (r: Result<Adapter, FactoryError>)
      requires Valid()
      modifies dynamicModule
      ensures Valid()
      ensures value == null ==> r == Err(ArgumentNull("value")) && dynamicModule.types == old(dynamicModule.types)
      ensures value != null ==>
                r.Ok? && fresh(r.value) && r.value.wrapped == value
                && r.value.adapterType == CachedOrBuilt(old(dynamicModule.types), proxyType, value.runtimeType,
                                                        isAssignableFrom, adapterProxy.Some?)
                && r.value.adapterType.hasProxyField == adapterProxy.Some?
                && r.value.proxy == adapterProxy
                && dynamicModule.types == old(dynamicModule.types)[r.value.adapterType.name := r.value.adapterType]
    {
      if value == null {
        return Err(ArgumentNull("value"));
      }
      var adapterType := GetAdapterType(value.runtimeType);
      var instance := new Adapter(adapterType, value);
      AdapterTypeNameSuffix(value.runtimeType.handle, adapterProxy.Some?);
      if EndsWith(adapterType.name, ProxySuffix) {
        instance.proxy := adapterProxy;
      }
      r := Ok(instance);
    }
  }
}
