/**
 * AdapterProxy: the default interception behaviour a proxied adapter calls
 * into. Every operation reflects on the wrapped instance's run-time type,
 * reports a missing member as an error, and otherwise forwards: a method
 * call is resolved by name and argument types, properties and indexers are
 * read and written, and event handlers are added and removed.
 *
 * A property's value is kept in the instance's property store (an indexer's
 * by its argument values), and an event's handlers in its invocation list,
 * so that what one operation writes the next can read.
 */
module AdapterProxy {
  import opened Wrappers
  import opened Types
  import opened Linq
  import opened TypeComparer
  import opened TypeReflector

  /**
   * The exceptions the operations raise: MissingMemberException for a
   * member not found, AmbiguousMatchException for a name several
   * properties or events share, ArgumentNullException for a null argument,
   * ArgumentException for a property or indexer without the accessor
   * GetValue or SetValue needs, and InvalidOperationException for an event
   * without a public add or remove method.
   */
  datatype ProxyError =
    | MissingMethod(methodName: string, onType: Type)
    | MissingProperty(propertyName: string, onType: Type)
    | MissingIndexer(onType: Type)
    | MissingEvent(eventName: string, onType: Type)
    | AmbiguousMember(memberName: string, onType: Type)
    | NullArgument(position: nat)
    | NoGetter(propertyName: string)
    | NoSetter(propertyName: string)
    | NoPublicAdder(eventName: string)
    | NoPublicRemover(eventName: string)

  function IsNull(): Value -> bool
  {
    (v: Value) => v.Null?
  }

  /** Type.GetTypeArray: the run-time type of every argument; a null argument is an error. */
  function ArgumentTypes(arguments: seq<Value>): (r: Result<seq<Type>, ProxyError>)
    ensures r.Ok? <==> forall i :: 0 <= i < |arguments| ==> arguments[i].Object?
    ensures r.Ok? ==> |r.value| == |arguments| && forall i :: 0 <= i < |arguments| ==> r.value[i] == arguments[i].runtimeType
    ensures r.Err? ==> r.error.NullArgument? && r.error.position < |arguments| && arguments[r.error.position].Null?
  {
    var n := IndexOfFirst(arguments, IsNull());
    if n < |arguments| then Err(NullArgument(n))
    else Ok(seq(|arguments|, i requires 0 <= i < |arguments| && arguments[i].Object? => arguments[i].runtimeType))
  }

  /** A forwarded call: the method found, on the wrapped instance, with the arguments unchanged. */
  datatype Invocation = Invocation(target: MethodInfo, receiver: Instance, arguments: seq<Value>)

  /**
   * Invoke: the method GetMethod finds on the instance's run-time type for
   * the name and the arguments' types, called with the same arguments.
   */
  function Invoke(instance: Instance, isAssignableFrom: AssignableFrom, methodName: string, arguments: seq<Value>)
    : (r: Result<Invocation, ProxyError>)
    ensures r.Ok? ==> r.value.receiver == instance && r.value.arguments == arguments
                      && r.value.target in instance.runtimeType.methods && r.value.target.name == methodName
    ensures r.Ok? <==> ArgumentTypes(arguments).Ok?
                       && GetMethod(instance.runtimeType, isAssignableFrom, methodName, ArgumentTypes(arguments).value).Some?
    ensures r.Ok? ==> Some(r.value.target) == GetMethod(instance.runtimeType, isAssignableFrom, methodName, ArgumentTypes(arguments).value)
    ensures r.Err? && ArgumentTypes(arguments).Ok? ==> r.error == MissingMethod(methodName, instance.runtimeType.handle)
  {
    match ArgumentTypes(arguments)
    case Err(e) => Err(e)
    case Ok(argTypes) =>
      match GetMethod(instance.runtimeType, isAssignableFrom, methodName, argTypes)
      case None => Err(MissingMethod(methodName, instance.runtimeType.handle))
      case Some(m) => Ok(Invocation(m, instance, arguments))
  }

  /**
   * With no nulls among the arguments and no single-candidate shortcut, a
   * method of that name whose parameters are exactly the arguments'
   * run-time types wins: the call goes to such a method.
   */
  lemma InvokePrefersExact(instance: Instance, isAssignableFrom: AssignableFrom, methodName: string,
                           arguments: seq<Value>, k: nat)
    requires forall i :: 0 <= i < |arguments| ==> arguments[i].Object?
    requires !(|MethodsNamed(instance.runtimeType, methodName)| == 1 && arguments == [])
    requires k < |instance.runtimeType.methods| && instance.runtimeType.methods[k].name == methodName
    requires var ps := instance.runtimeType.methods[k].parameterTypes;
             |ps| == |arguments| && forall i :: 0 <= i < |ps| ==> ps[i] == arguments[i].runtimeType
    ensures var r := Invoke(instance, isAssignableFrom, methodName, arguments);
            r.Ok? && |r.value.target.parameterTypes| == |arguments|
            && forall i :: 0 <= i < |arguments| ==> r.value.target.parameterTypes[i] == arguments[i].runtimeType
  {
    var argTypes := ArgumentTypes(arguments).value;
    var ps := instance.runtimeType.methods[k].parameterTypes;
    assert ps == argTypes;
    SameTypesIsEquality(ps, argTypes);
    GetMethodPrefersExact(instance.runtimeType, isAssignableFrom, methodName, argTypes, k);
  }

  /**
   * Invoke reports the method missing exactly when the arguments are not
   * null, the shortcut does not apply, and no method of that name takes
   * parameters identical to, or assignable from, the arguments' types.
   */
  lemma InvokeMissing(instance: Instance, isAssignableFrom: AssignableFrom, methodName: string, arguments: seq<Value>)
    requires forall i :: 0 <= i < |arguments| ==> arguments[i].Object?
    ensures var argTypes := ArgumentTypes(arguments).value;
            var methods := instance.runtimeType.methods;
            Invoke(instance, isAssignableFrom, methodName, arguments) == Err(MissingMethod(methodName, instance.runtimeType.handle))
            <==>
            !(|MethodsNamed(instance.runtimeType, methodName)| == 1 && arguments == [])
            && forall i :: 0 <= i < |methods| && methods[i].name == methodName ==>
                 !SameTypes(methods[i].parameterTypes, argTypes)
                 && !AssignableTypes(isAssignableFrom, methods[i].parameterTypes, argTypes)
  {
    GetMethodNone(instance.runtimeType, isAssignableFrom, methodName, ArgumentTypes(arguments).value);
  }

  // ---------------------------------------------------------------------
  // Properties
  // ---------------------------------------------------------------------

  /** What a property holds: its stored value, or null before it is first set. */
  function Stored<K(!new)>(store: map<K, Value>, key: K): Value
  {
    if key in store then store[key] else Null
  }

  /**
   * The property Get and Set act on: the one property of that name; an
   * error when there is none or when there are several.
   */
  function PropertyFor(instance: Instance, propertyName: string): (r: Result<PropertyInfo, ProxyError>)
    ensures r == Err(MissingProperty(propertyName, instance.runtimeType.handle))
            <==> forall i :: 0 <= i < |instance.runtimeType.properties| ==> instance.runtimeType.properties[i].name != propertyName
    ensures r == Err(AmbiguousMember(propertyName, instance.runtimeType.handle))
            <==> exists i, j :: 0 <= i < j < |instance.runtimeType.properties| && instance.runtimeType.properties[i].name == propertyName && instance.runtimeType.properties[j].name == propertyName
    ensures r.Ok? ==> r.value in instance.runtimeType.properties && r.value.name == propertyName
                      && forall i :: 0 <= i < |instance.runtimeType.properties| && instance.runtimeType.properties[i].name == propertyName ==> instance.runtimeType.properties[i] == r.value
    ensures r.Err? ==> r.error.MissingProperty? || r.error.AmbiguousMember?
  {
    match GetProperty(instance.runtimeType, propertyName)
    case NoMatch => Err(MissingProperty(propertyName, instance.runtimeType.handle))
    case AmbiguousMatch => Err(AmbiguousMember(propertyName, instance.runtimeType.handle))
    case Match(p) => Ok(p)
  }

  /**
   * Get(instance, property): the value of the property of that name; the
   * lookup's error, or NoGetter when the property has no get accessor.
   */
  function GetPropertyValue(instance: Instance, propertyName: string): (r: Result<Value, ProxyError>)
    reads instance
    ensures var p := PropertyFor(instance, propertyName);
            (p.Err? ==> r == Err(p.error))
            && (p.Ok? ==> (r.Ok? <==> p.value.canRead) && (r.Err? ==> r.error == NoGetter(propertyName)))
  {
    match PropertyFor(instance, propertyName)
    case Err(e) => Err(e)
    case Ok(p) => if p.canRead then Ok(Stored(instance.properties, p)) else Err(NoGetter(propertyName))
  }

  /**
   * Set(instance, property, value): stores the value in the property of
   * that name and changes nothing else; a later Get of that name reads it
   * back when the property has a getter, and Gets of other properties are
   * unaffected. A missing or ambiguous property, or one without a set
   * accessor, is an error and leaves the instance as it was.
   */
  method SetPropertyValue(instance: Instance, propertyName: string, value: Value) returns (r: Result<(), ProxyError>)
    modifies instance
    ensures var p := PropertyFor(instance, propertyName);
            (p.Err? ==> r == Err(p.error) && unchanged(instance))
            && (p.Ok? && !p.value.canWrite ==> r == Err(NoSetter(propertyName)) && unchanged(instance))
            && (p.Ok? && p.value.canWrite ==>
                  r == Ok(()) && instance.properties == old(instance.properties)[p.value := value]
                  && instance.indexed == old(instance.indexed) && instance.handlers == old(instance.handlers))
    ensures r.Ok? ==> GetPropertyValue(instance, propertyName)
                      == if PropertyFor(instance, propertyName).value.canRead then Ok(value) else Err(NoGetter(propertyName))
    ensures forall other :: PropertyFor(instance, other) != PropertyFor(instance, propertyName) ==>
              GetPropertyValue(instance, other) == old(GetPropertyValue(instance, other))
  {
    match PropertyFor(instance, propertyName)
    case Err(e) =>
      r := Err(e);
    case Ok(p) =>
      if p.canWrite {
        instance.properties := instance.properties[p := value];
        r := Ok(());
      } else {
        r := Err(NoSetter(propertyName));
      }
  }

  // ---------------------------------------------------------------------
  // Indexers
  // ---------------------------------------------------------------------

  /** The indexer GetIndexer finds for the arguments' types, or the error. */
  function IndexerFor(instance: Instance, isAssignableFrom: AssignableFrom, arguments: seq<Value>)
    : (r: Result<PropertyInfo, ProxyError>)
    ensures r.Ok? <==> ArgumentTypes(arguments).Ok?
                       && GetIndexer(instance.runtimeType, isAssignableFrom, ArgumentTypes(arguments).value).Some?
    ensures r.Ok? ==> r.value in instance.runtimeType.properties && r.value.name == IndexerName
    ensures r.Err? && ArgumentTypes(arguments).Ok? ==> r.error == MissingIndexer(instance.runtimeType.handle)
  {
    match ArgumentTypes(arguments)
    case Err(e) => Err(e)
    case Ok(argTypes) =>
      match GetIndexer(instance.runtimeType, isAssignableFrom, argTypes)
      case None => Err(MissingIndexer(instance.runtimeType.handle))
      case Some(p) => Ok(p)
  }

  /**
   * Get(instance, args): the value the indexer holds at those arguments;
   * the lookup's error, or NoGetter when the indexer has no get accessor.
   */
  function GetIndexedValue(instance: Instance, isAssignableFrom: AssignableFrom, arguments: seq<Value>)
    : (r: Result<Value, ProxyError>)
    reads instance
    ensures var p := IndexerFor(instance, isAssignableFrom, arguments);
            (p.Err? ==> r == Err(p.error))
            && (p.Ok? ==> (r.Ok? <==> p.value.canRead) && (r.Err? ==> r.error == NoGetter(IndexerName)))
  {
    match IndexerFor(instance, isAssignableFrom, arguments)
    case Err(e) => Err(e)
    case Ok(p) => if p.canRead then Ok(Stored(instance.indexed, (p, arguments))) else Err(NoGetter(p.name))
  }

  /**
   * Set(instance, args, value): stores the value in the indexer at those
   * arguments and changes nothing else; a later Get with the same
   * arguments reads it back when the indexer has a getter. A missing
   * indexer, a null argument or an indexer without a set accessor is an
   * error and leaves the instance as it was.
   */
  method SetIndexedValue(instance: Instance, isAssignableFrom: AssignableFrom, arguments: seq<Value>, value: Value)
    returns (r: Result<(), ProxyError>)
    modifies instance
    ensures var p := IndexerFor(instance, isAssignableFrom, arguments);
            (p.Err? ==> r == Err(p.error) && unchanged(instance))
            && (p.Ok? && !p.value.canWrite ==> r == Err(NoSetter(IndexerName)) && unchanged(instance))
            && (p.Ok? && p.value.canWrite ==>
                  r == Ok(()) && instance.indexed == old(instance.indexed)[(p.value, arguments) := value]
                  && instance.properties == old(instance.properties) && instance.handlers == old(instance.handlers))
    ensures r.Ok? ==> GetIndexedValue(instance, isAssignableFrom, arguments)
                      == if IndexerFor(instance, isAssignableFrom, arguments).value.canRead then Ok(value) else Err(NoGetter(IndexerName))
  {
    match IndexerFor(instance, isAssignableFrom, arguments)
    case Err(e) =>
      r := Err(e);
    case Ok(p) =>
      if p.canWrite {
        instance.indexed := instance.indexed[(p, arguments) := value];
        r := Ok(());
      } else {
        r := Err(NoSetter(p.name));
      }
  }

  // ---------------------------------------------------------------------
  // Events
  // ---------------------------------------------------------------------

  /** The invocation list of an event: empty until a handler is added. */
  function HandlersOf(handlers: map<EventInfo, seq<Handler>>, e: EventInfo): seq<Handler>
  {
    if e in handlers then handlers[e] else []
  }

  /**
   * Delegate.Remove with a single handler: the last occurrence is taken
   * out of the invocation list; a handler not in the list leaves it as is.
   */
  function RemoveLast(list: seq<Handler>, handler: Handler): (r: seq<Handler>)
    ensures handler !in list ==> r == list
    ensures handler in list ==> |r| == |list| - 1
  {
    if list == [] then []
    else if list[|list| - 1] == handler then list[..|list| - 1]
    else
      var prefix := list[..|list| - 1];
      assert list == prefix + [list[|list| - 1]];
      RemoveLast(prefix, handler) + [list[|list| - 1]]
  }

  /** Where the handler last occurs in the list. */
  function LastIndex(list: seq<Handler>, handler: Handler): (i: nat)
    requires handler in list
    ensures i < |list| && list[i] == handler
    ensures forall j :: i < j < |list| ==> list[j] != handler
  {
    var n := |list| - 1;
    if list[n] == handler then n
    else
      assert list == list[..n] + [list[n]];
      LastIndex(list[..n], handler)
  }

  /** The occurrence taken out is the last one, and the rest keep their order. */
  lemma {:induction false} RemoveLastShape(list: seq<Handler>, handler: Handler)
    requires handler in list
    ensures var i := LastIndex(list, handler);
            RemoveLast(list, handler) == list[..i] + list[i + 1..]
  {
    var n := |list| - 1;
    var prefix, last := list[..n], list[n];
    assert list == prefix + [last];
    if last != handler {
      assert handler in prefix;
      RemoveLastShape(prefix, handler);
      var i := LastIndex(prefix, handler);
      assert list[i + 1..] == prefix[i + 1..] + [last];
      assert list[..i] == prefix[..i];
    }
  }

  /** Removing a handler takes exactly one copy of it out of the list, when there is one. */
  lemma {:induction false} RemoveLastMultiset(list: seq<Handler>, handler: Handler)
    ensures multiset(RemoveLast(list, handler)) == multiset(list) - multiset{handler}
  {
    if list != [] && list[|list| - 1] != handler {
      var prefix := list[..|list| - 1];
      var last := list[|list| - 1];
      assert list == prefix + [last];
      RemoveLastMultiset(prefix, handler);
    } else if list != [] {
      assert list == list[..|list| - 1] + [handler];
    }
  }

  /** Removing the handler just added gives back the list before it was added. */
  lemma UnhookUndoesHook(list: seq<Handler>, handler: Handler)
    ensures RemoveLast(list + [handler], handler) == list
  {
    assert (list + [handler])[..|list|] == list;
  }

  /** The event Hook and Unhook act on: the one event of that name; an error when there is none or when there are several. */
  function EventFor(instance: Instance, eventName: string): (r: Result<EventInfo, ProxyError>)
    ensures r == Err(MissingEvent(eventName, instance.runtimeType.handle))
            <==> forall i :: 0 <= i < |instance.runtimeType.events| ==> instance.runtimeType.events[i].name != eventName
    ensures r == Err(AmbiguousMember(eventName, instance.runtimeType.handle))
            <==> exists i, j :: 0 <= i < j < |instance.runtimeType.events| && instance.runtimeType.events[i].name == eventName && instance.runtimeType.events[j].name == eventName
    ensures r.Ok? ==> r.value in instance.runtimeType.events && r.value.name == eventName
                      && forall i :: 0 <= i < |instance.runtimeType.events| && instance.runtimeType.events[i].name == eventName ==> instance.runtimeType.events[i] == r.value
    ensures r.Err? ==> r.error.MissingEvent? || r.error.AmbiguousMember?
  {
    match GetEvent(instance.runtimeType, eventName)
    case NoMatch => Err(MissingEvent(eventName, instance.runtimeType.handle))
    case AmbiguousMatch => Err(AmbiguousMember(eventName, instance.runtimeType.handle))
    case Match(e) => Ok(e)
  }

  /**
   * Hook: adds the handler at the end of the event's invocation list. A
   * missing or ambiguous event, or one without a public add method, is an
   * error and leaves the instance as it was.
   */
  method Hook(instance: Instance, eventName: string, handler: Handler) returns (r: Result<(), ProxyError>)
    modifies instance
    ensures var e := EventFor(instance, eventName);
            (e.Err? ==> r == Err(e.error) && unchanged(instance))
            && (e.Ok? && e.value.adder.None? ==> r == Err(NoPublicAdder(eventName)) && unchanged(instance))
            && (e.Ok? && e.value.adder.Some? ==>
                  r == Ok(())
                  && instance.handlers == old(instance.handlers)[e.value := HandlersOf(old(instance.handlers), e.value) + [handler]]
                  && instance.properties == old(instance.properties) && instance.indexed == old(instance.indexed))
  {
    match EventFor(instance, eventName)
    case Err(error) =>
      r := Err(error);
    case Ok(e) =>
      if e.adder.Some? {
        instance.handlers := instance.handlers[e := HandlersOf(instance.handlers, e) + [handler]];
        r := Ok(());
      } else {
        r := Err(NoPublicAdder(eventName));
      }
  }

  /**
   * Unhook: removes the last occurrence of the handler from the event's
   * invocation list. A missing or ambiguous event, or one without a public
   * remove method, is an error and leaves the instance as it was.
   */
  method Unhook(instance: Instance, eventName: string, handler: Handler) returns (r: Result<(), ProxyError>)
    modifies instance
    ensures var e := EventFor(instance, eventName);
            (e.Err? ==> r == Err(e.error) && unchanged(instance))
            && (e.Ok? && e.value.remover.None? ==> r == Err(NoPublicRemover(eventName)) && unchanged(instance))
            && (e.Ok? && e.value.remover.Some? ==>
                  r == Ok(())
                  && instance.handlers == old(instance.handlers)[e.value := RemoveLast(HandlersOf(old(instance.handlers), e.value), handler)]
                  && instance.properties == old(instance.properties) && instance.indexed == old(instance.indexed))
  {
    match EventFor(instance, eventName)
    case Err(error) =>
      r := Err(error);
    case Ok(e) =>
      if e.remover.Some? {
        instance.handlers := instance.handlers[e := RemoveLast(HandlersOf(instance.handlers, e), handler)];
        r := Ok(());
      } else {
        r := Err(NoPublicRemover(eventName));
      }
  }
}
