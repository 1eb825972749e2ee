/**
 * TypeReflector: member lookups on one reflected type. Fields, properties
 * and events are found by name; constructors, methods and indexers by
 * ordered argument types, preferring an identical parameter list over an
 * assignable one and, within a tier, the first member enumerated.
 */
module TypeReflector {
  import opened Wrappers
  import opened Types
  import opened Linq
  import opened TypeComparer

  /** The name the C# compiler gives indexers. */
  const IndexerName := "Item"

  /** Tier one for methods and constructors: the parameter list is the argument-type list. */
  function ParametersEqual(argTypes: seq<Type>): MethodInfo -> bool
  {
    (m: MethodInfo) => SameTypes(m.parameterTypes, argTypes)
  }

  /** Tier two: every parameter type is assignable from the argument type at its position. */
  function ParametersAccept(isAssignableFrom: AssignableFrom, argTypes: seq<Type>): MethodInfo -> bool
  {
    (m: MethodInfo) => AssignableTypes(isAssignableFrom, m.parameterTypes, argTypes)
  }

  function IndexParametersEqual(argTypes: seq<Type>): PropertyInfo -> bool
  {
    (p: PropertyInfo) => SameTypes(p.indexParameterTypes, argTypes)
  }

  function IndexParametersAccept(isAssignableFrom: AssignableFrom, argTypes: seq<Type>): PropertyInfo -> bool
  {
    (p: PropertyInfo) => AssignableTypes(isAssignableFrom, p.indexParameterTypes, argTypes)
  }

  /** The methods of the reflected type with the given name, in enumeration order. */
  function MethodsNamed(reflected: TypeInfo, methodName: string): seq<MethodInfo>
  {
    Where(reflected.methods, HasName(methodName))
  }

  function HasName(methodName: string): MethodInfo -> bool
  {
    (m: MethodInfo) => m.name == methodName
  }

  /** The properties named "Item", in enumeration order. */
  function Indexers(reflected: TypeInfo): seq<PropertyInfo>
  {
    Where(reflected.properties, (p: PropertyInfo) => p.name == IndexerName)
  }

  /** The first field with the given name, or none. */
  function GetField(reflected: TypeInfo, fieldName: string): (r: Option<FieldInfo>)
    ensures r.None? <==> forall i :: 0 <= i < |reflected.fields| ==> reflected.fields[i].name != fieldName
    ensures r.Some? ==> exists i :: 0 <= i < |reflected.fields| && reflected.fields[i] == r.value
                                  && r.value.name == fieldName
                                  && forall j :: 0 <= j < i ==> reflected.fields[j].name != fieldName
  {
    var named := (f: FieldInfo) => f.name == fieldName;
    FirstWhere(reflected.fields, named);
    FirstOrDefault(Where(reflected.fields, named))
  }

  /**
   * The property with the given name; none when there is no such property,
   * an ambiguous match when there are several (overloaded indexers, or a
   * property hidden by one of the same name).
   */
  function GetProperty(reflected: TypeInfo, propertyName: string): (r: Lookup<PropertyInfo>)
    ensures r.NoMatch? <==> forall i :: 0 <= i < |reflected.properties| ==> reflected.properties[i].name != propertyName
    ensures r.AmbiguousMatch? <==> exists i, j :: 0 <= i < j < |reflected.properties|
                                                && reflected.properties[i].name == propertyName
                                                && reflected.properties[j].name == propertyName
    ensures r.Match? ==> r.member in reflected.properties && r.member.name == propertyName
                         && forall i :: 0 <= i < |reflected.properties| && reflected.properties[i].name == propertyName ==>
                              reflected.properties[i] == r.member
  {
    SingleMatch(reflected.properties, (p: PropertyInfo) => p.name == propertyName)
  }

  /** The event with the given name; none, or an ambiguous match when there are several. */
  function GetEvent(reflected: TypeInfo, eventName: string): (r: Lookup<EventInfo>)
    ensures r.NoMatch? <==> forall i :: 0 <= i < |reflected.events| ==> reflected.events[i].name != eventName
    ensures r.AmbiguousMatch? <==> exists i, j :: 0 <= i < j < |reflected.events|
                                                && reflected.events[i].name == eventName
                                                && reflected.events[j].name == eventName
    ensures r.Match? ==> r.member in reflected.events && r.member.name == eventName
                         && forall i :: 0 <= i < |reflected.events| && reflected.events[i].name == eventName ==>
                              reflected.events[i] == r.member
  {
    SingleMatch(reflected.events, (e: EventInfo) => e.name == eventName)
  }

  /** The constructor taking exactly argTypes, else the first accepting them, else none. */
  function GetConstructor(reflected: TypeInfo, isAssignableFrom: AssignableFrom, argTypes: seq<Type>): (r: Option<MethodInfo>)
    ensures r == Preferred(reflected.constructors, ParametersEqual(argTypes), ParametersAccept(isAssignableFrom, argTypes))
  {
    var constructors := reflected.constructors;
    FirstOfUnion(constructors, ParametersEqual(argTypes), ParametersAccept(isAssignableFrom, argTypes));
    FirstOrDefault(Union(Where(constructors, ParametersEqual(argTypes)),
                         Where(constructors, ParametersAccept(isAssignableFrom, argTypes))))
  }

  /**
   * When exactly one method has the name and no argument types are given,
   * that method; otherwise the tiered lookup among the methods of that name.
   */
  function GetMethod(reflected: TypeInfo, isAssignableFrom: AssignableFrom, methodName: string, argTypes: seq<Type>): (r: Option<MethodInfo>)
    ensures r.Some? ==> r.value in reflected.methods && r.value.name == methodName
    ensures |MethodsNamed(reflected, methodName)| == 1 && argTypes == [] ==> r == Some(MethodsNamed(reflected, methodName)[0])
    ensures !(|MethodsNamed(reflected, methodName)| == 1 && argTypes == []) ==>
              r == Preferred(MethodsNamed(reflected, methodName), ParametersEqual(argTypes), ParametersAccept(isAssignableFrom, argTypes))
  {
    var matches := MethodsNamed(reflected, methodName);
    if |matches| == 1 && argTypes == [] then
      Some(matches[0])
    else
      FirstOfUnion(matches, ParametersEqual(argTypes), ParametersAccept(isAssignableFrom, argTypes));
      FirstOrDefault(Union(Where(matches, ParametersEqual(argTypes)),
                           Where(matches, ParametersAccept(isAssignableFrom, argTypes))))
  }

  /** GetMethod(name): the lookup with no argument types. */
  function GetMethodByName(reflected: TypeInfo, isAssignableFrom: AssignableFrom, methodName: string): (r: Option<MethodInfo>)
    ensures r == GetMethod(reflected, isAssignableFrom, methodName, [])
    ensures |MethodsNamed(reflected, methodName)| == 1 ==> r == Some(MethodsNamed(reflected, methodName)[0])
  {
    GetMethod(reflected, isAssignableFrom, methodName, [])
  }

  /**
   * Without argument types and with several (or no) methods of that name,
   * only a parameterless method of that name can be found, and one is found
   * whenever it exists.
   */
  lemma GetMethodByNameOverloaded(reflected: TypeInfo, isAssignableFrom: AssignableFrom, methodName: string)
    requires |MethodsNamed(reflected, methodName)| != 1
    ensures var r := GetMethodByName(reflected, isAssignableFrom, methodName);
            (r.Some? <==> exists i :: 0 <= i < |reflected.methods| && reflected.methods[i].name == methodName
                                                                && reflected.methods[i].parameterTypes == [])
            && (r.Some? ==> r.value.parameterTypes == [])
  {
    if exists i :: 0 <= i < |reflected.methods| && reflected.methods[i].name == methodName
                                               && reflected.methods[i].parameterTypes == [] {
      var i :| 0 <= i < |reflected.methods| && reflected.methods[i].name == methodName
                                           && reflected.methods[i].parameterTypes == [];
      ParameterlessIsFound(reflected, isAssignableFrom, methodName, i);
    }
    FoundIsParameterless(reflected, isAssignableFrom, methodName);
  }

  lemma ParameterlessIsFound(reflected: TypeInfo, isAssignableFrom: AssignableFrom, methodName: string, i: nat)
    requires |MethodsNamed(reflected, methodName)| != 1
    requires i < |reflected.methods| && reflected.methods[i].name == methodName && reflected.methods[i].parameterTypes == []
    ensures GetMethodByName(reflected, isAssignableFrom, methodName).Some?
  {
    var matches := MethodsNamed(reflected, methodName);
    assert HasName(methodName)(reflected.methods[i]);
    assert reflected.methods[i] in matches;
    var k :| 0 <= k < |matches| && matches[k] == reflected.methods[i];
    assert ParametersEqual([])(matches[k]);
  }

  lemma FoundIsParameterless(reflected: TypeInfo, isAssignableFrom: AssignableFrom, methodName: string)
    requires |MethodsNamed(reflected, methodName)| != 1
    ensures var r := GetMethodByName(reflected, isAssignableFrom, methodName);
            r.Some? ==> r.value.parameterTypes == []
                        && exists i :: 0 <= i < |reflected.methods| && reflected.methods[i] == r.value
  {
    var r := GetMethodByName(reflected, isAssignableFrom, methodName);
    if r.Some? {
      var m := r.value;
      assert ParametersEqual([])(m) || ParametersAccept(isAssignableFrom, [])(m);
    }
  }

  /** The "Item" property whose index parameters are exactly argTypes, else the first accepting them, else none. */
  function GetIndexer(reflected: TypeInfo, isAssignableFrom: AssignableFrom, argTypes: seq<Type>): (r: Option<PropertyInfo>)
    ensures r == Preferred(Indexers(reflected), IndexParametersEqual(argTypes), IndexParametersAccept(isAssignableFrom, argTypes))
    ensures r.Some? ==> r.value in reflected.properties && r.value.name == IndexerName
                        && (SameTypes(r.value.indexParameterTypes, argTypes)
                            || AssignableTypes(isAssignableFrom, r.value.indexParameterTypes, argTypes))
  {
    var matches := Indexers(reflected);
    FirstOfUnion(matches, IndexParametersEqual(argTypes), IndexParametersAccept(isAssignableFrom, argTypes));
    FirstOrDefault(Union(Where(matches, IndexParametersEqual(argTypes)),
                         Where(matches, IndexParametersAccept(isAssignableFrom, argTypes))))
  }

  /**
   * GetMethod finds nothing exactly when the single-candidate shortcut does
   * not apply and no method of that name has parameters identical to, or
   * assignable from, the argument types.
   */
  lemma GetMethodNone(reflected: TypeInfo, isAssignableFrom: AssignableFrom, methodName: string, argTypes: seq<Type>)
    ensures GetMethod(reflected, isAssignableFrom, methodName, argTypes).None? <==>
              !(|MethodsNamed(reflected, methodName)| == 1 && argTypes == [])
              && forall i :: 0 <= i < |reflected.methods| && reflected.methods[i].name == methodName ==>
                   !SameTypes(reflected.methods[i].parameterTypes, argTypes)
                   && !AssignableTypes(isAssignableFrom, reflected.methods[i].parameterTypes, argTypes)
  {
    var matches := MethodsNamed(reflected, methodName);
    if !(|matches| == 1 && argTypes == []) {
      if GetMethod(reflected, isAssignableFrom, methodName, argTypes).None? {
        NoneRulesOutAll(reflected, isAssignableFrom, methodName, argTypes);
      }
    }
  }

  lemma NoneRulesOutAll(reflected: TypeInfo, isAssignableFrom: AssignableFrom, methodName: string, argTypes: seq<Type>)
    requires !(|MethodsNamed(reflected, methodName)| == 1 && argTypes == [])
    requires GetMethod(reflected, isAssignableFrom, methodName, argTypes).None?
    ensures forall i :: 0 <= i < |reflected.methods| && reflected.methods[i].name == methodName ==>
              !SameTypes(reflected.methods[i].parameterTypes, argTypes)
              && !AssignableTypes(isAssignableFrom, reflected.methods[i].parameterTypes, argTypes)
  {
    var matches := MethodsNamed(reflected, methodName);
    forall i | 0 <= i < |reflected.methods| && reflected.methods[i].name == methodName
      ensures !SameTypes(reflected.methods[i].parameterTypes, argTypes)
              && !AssignableTypes(isAssignableFrom, reflected.methods[i].parameterTypes, argTypes)
    {
      assert HasName(methodName)(reflected.methods[i]);
      assert reflected.methods[i] in matches;
      var k :| 0 <= k < |matches| && matches[k] == reflected.methods[i];
      assert !ParametersEqual(argTypes)(matches[k]) && !ParametersAccept(isAssignableFrom, argTypes)(matches[k]);
    }
  }

  /**
   * Outside the shortcut, an identical parameter list beats any assignable
   * one: when some method of that name takes exactly argTypes, the method
   * found takes exactly argTypes, and it is the first such.
   */
  lemma GetMethodPrefersExact(reflected: TypeInfo, isAssignableFrom: AssignableFrom, methodName: string, argTypes: seq<Type>, k: nat)
    requires !(|MethodsNamed(reflected, methodName)| == 1 && argTypes == [])
    requires k < |reflected.methods| && reflected.methods[k].name == methodName
    requires SameTypes(reflected.methods[k].parameterTypes, argTypes)
    ensures var r := GetMethod(reflected, isAssignableFrom, methodName, argTypes);
            r.Some? && r.value.parameterTypes == argTypes
            && exists i :: 0 <= i <= k && reflected.methods[i] == r.value
                           && forall j :: 0 <= j < i && reflected.methods[j].name == methodName ==> reflected.methods[j].parameterTypes != argTypes
  {
    var matches := MethodsNamed(reflected, methodName);
    var exact := ParametersEqual(argTypes);
    FirstInFiltered(reflected.methods, HasName(methodName), exact, k);
    var i := IndexOfFirst(matches, exact);
    var n := IndexOfFirst(reflected.methods, Both(HasName(methodName), exact));
    var r := GetMethod(reflected, isAssignableFrom, methodName, argTypes);
    assert r == Some(matches[i]);
    SameTypesIsEquality(matches[i].parameterTypes, argTypes);
    NoEarlierExact(reflected, methodName, argTypes);
    assert reflected.methods[n] == r.value;
  }

  /** Before the first method that has the name and takes exactly argTypes, no method of that name takes them. */
  lemma NoEarlierExact(reflected: TypeInfo, methodName: string, argTypes: seq<Type>)
    ensures var n := IndexOfFirst(reflected.methods, Both(HasName(methodName), ParametersEqual(argTypes)));
            forall j :: 0 <= j < n && reflected.methods[j].name == methodName ==>
              reflected.methods[j].parameterTypes != argTypes
  {
    var exact := ParametersEqual(argTypes);
    var n := IndexOfFirst(reflected.methods, Both(HasName(methodName), exact));
    forall j | 0 <= j < n && reflected.methods[j].name == methodName
      ensures reflected.methods[j].parameterTypes != argTypes
    {
      assert !Both(HasName(methodName), exact)(reflected.methods[j]);
      assert !SameTypes(reflected.methods[j].parameterTypes, argTypes);
      SameTypesIsEquality(reflected.methods[j].parameterTypes, argTypes);
    }
  }
}
