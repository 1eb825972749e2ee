/**
 * The part of the .NET reflection world the adapter engine reads: type
 * handles, member descriptions (MethodInfo, PropertyInfo, FieldInfo,
 * EventInfo), the member lists reflection enumerates for a type, and the
 * run-time objects being adapted.
 */
module Types {
  import opened Wrappers
  import opened Linq

  /** A System.Type handle; two handles are the same type when they are equal. */
  datatype Type = Type(fullName: string, isValueType: bool, isClass: bool, isSealed: bool)

  /** typeof(void) */
  const Void: Type := Type("System.Void", true, false, true)

  /**
   * Type.IsAssignableFrom as an abstract relation: isAssignableFrom(a, b)
   * means a value of type b can be supplied where a is expected.
   */
  type AssignableFrom = (Type, Type) -> bool

  /** Every type is assignable from itself. */
  ghost predicate Reflexive(isAssignableFrom: AssignableFrom)
  {
    forall t :: isAssignableFrom(t, t)
  }

  datatype Access = Public | Family | Assembly | FamilyOrAssembly | FamilyAndAssembly | Private

  /**
   * A method, accessor or constructor (MethodBase); constructors are named
   * ".ctor". A static method has no receiver.
   */
  datatype MethodInfo = MethodInfo(
    name: string,
    parameterTypes: seq<Type>,
    returnType: Type,
    access: Access,
    isStatic: bool,
    isAbstract: bool,
    isVirtual: bool,
    isSpecialName: bool)

  /**
   * A property or indexer. `canRead` and `canWrite` say whether it has a get
   * or a set accessor of any accessibility (what GetValue and SetValue
   * need); `getter` and `setter` are what GetGetMethod() and GetSetMethod()
   * return: the accessor when it is public, null otherwise.
   */
  datatype PropertyInfo = PropertyInfo(
    name: string,
    propertyType: Type,
    indexParameterTypes: seq<Type>,
    canRead: bool,
    canWrite: bool,
    getter: Option<MethodInfo>,
    setter: Option<MethodInfo>)

  datatype FieldInfo = FieldInfo(name: string, fieldType: Type)

  /**
   * An event; `adder` and `remover` are GetAddMethod() and
   * GetRemoveMethod(): the accessor when it is public, null otherwise.
   */
  datatype EventInfo = EventInfo(
    name: string,
    handlerType: Type,
    adder: Option<MethodInfo>,
    remover: Option<MethodInfo>)

  /**
   * What reflection enumerates for one type, in enumeration order, with
   * inherited members flattened in. The public-only enumeration GetMethods()
   * is the public subset of `methods`.
   */
  datatype TypeInfo = TypeInfo(
    handle: Type,
    constructors: seq<MethodInfo>,
    methods: seq<MethodInfo>,
    properties: seq<PropertyInfo>,
    fields: seq<FieldInfo>,
    events: seq<EventInfo>)

  /** Type.GetMethods() with no binding flags: the public methods. */
  function PublicMethods(t: TypeInfo): (r: seq<MethodInfo>)
    ensures forall i :: 0 <= i < |r| ==> r[i] in t.methods && r[i].access == Public
    ensures forall i :: 0 <= i < |t.methods| && t.methods[i].access == Public ==> t.methods[i] in r
  {
    Where(t.methods, (m: MethodInfo) => m.access == Public)
  }

  /** An argument or property value: null, or an object of some run-time type. */
  datatype Value = Null | Object(runtimeType: Type, identity: nat)

  /** A delegate added to or removed from an event. */
  datatype Handler = Handler(identity: nat)

  /**
   * An object being adapted. Its run-time type never changes; the state the
   * default interception policy reads and writes is the value of each
   * property, the value stored at each index of each indexer, and the
   * handler list of each event.
   */
  class Instance {
    const runtimeType: TypeInfo
    var properties: map<PropertyInfo, Value>
    var indexed: map<(PropertyInfo, seq<Value>), Value>
    var handlers: map<EventInfo, seq<Handler>>

    constructor (runtimeType: TypeInfo)
      ensures this.runtimeType == runtimeType
      ensures properties == map[] && indexed == map[] && handlers == map[]
    {
      this.runtimeType := runtimeType;
      properties, indexed, handlers := map[], map[], map[];
    }
  }
}
