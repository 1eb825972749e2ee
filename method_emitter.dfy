/**
 * AdapterFactory.MethodEmitter: for one contract method, choose the member
 * of the wrapped instance's type to call directly, or fall back to a
 * reflective lookup, and lay out the forwarding body.
 *
 * The body is a sequence of logical steps, each standing for the short IL
 * sequence named beside it. `Run` executes a body on a symbolic evaluation
 * stack, so its meaning (which call it makes, with which receiver and
 * arguments, and what it returns) can be stated and proved.
 */
module MethodEmitter {
  import opened Wrappers
  import opened Types
  import opened Linq
  import opened TypeComparer

  // ---------------------------------------------------------------------
  // Candidate selection and the binding decision
  // ---------------------------------------------------------------------

  function SameName(member: MethodInfo): MethodInfo -> bool
  {
    (m: MethodInfo) => m.name == member.name
  }

  /** Tier one: the candidate's parameter list is identical to the contract method's. */
  function MatchesExactly(member: MethodInfo): MethodInfo -> bool
  {
    (m: MethodInfo) => SameTypes(member.parameterTypes, m.parameterTypes)
  }

  /** Tier two: each contract parameter type is assignable from the candidate's parameter type. */
  function MatchesAssignably(isAssignableFrom: AssignableFrom, member: MethodInfo): MethodInfo -> bool
  {
    (m: MethodInfo) => AssignableTypes(isAssignableFrom, member.parameterTypes, m.parameterTypes)
  }

  /** The public methods of the wrapped instance's type named like the contract method. */
  function Candidates(implType: TypeInfo, member: MethodInfo): seq<MethodInfo>
  {
    Where(PublicMethods(implType), SameName(member))
  }

  /** The member a direct body calls: first exact candidate, else first assignable one, else none. */
  function SelectImplementation(implType: TypeInfo, isAssignableFrom: AssignableFrom, member: MethodInfo): (r: Option<MethodInfo>)
    ensures r == Preferred(Candidates(implType, member), MatchesExactly(member), MatchesAssignably(isAssignableFrom, member))
    ensures r.Some? ==> r.value in implType.methods && r.value.access == Public && r.value.name == member.name
                        && |r.value.parameterTypes| == |member.parameterTypes|
  {
    var candidates := Candidates(implType, member);
    FirstOfUnion(candidates, MatchesExactly(member), MatchesAssignably(isAssignableFrom, member));
    FirstOrDefault(Union(Where(candidates, MatchesExactly(member)),
                         Where(candidates, MatchesAssignably(isAssignableFrom, member))))
  }

  datatype Binding = Direct(target: MethodInfo) | Dynamic

  /** A direct body when some candidate exists, a reflective one otherwise. */
  function BindingFor(implType: TypeInfo, isAssignableFrom: AssignableFrom, member: MethodInfo): (b: Binding)
    ensures b.Direct? ==> b.target in implType.methods && b.target.access == Public && b.target.name == member.name
                          && |b.target.parameterTypes| == |member.parameterTypes|
  {
    match SelectImplementation(implType, isAssignableFrom, member)
    case Some(m) => Direct(m)
    case None => Dynamic
  }

  /** The wrapped type's method at index i could be bound directly. */
  predicate Eligible(implType: TypeInfo, isAssignableFrom: AssignableFrom, member: MethodInfo, i: int)
    requires 0 <= i < |implType.methods|
  {
    var m := implType.methods[i];
    m.access == Public && m.name == member.name
    && (SameTypes(member.parameterTypes, m.parameterTypes)
        || AssignableTypes(isAssignableFrom, member.parameterTypes, m.parameterTypes))
  }

  lemma EligibleIsSelected(implType: TypeInfo, isAssignableFrom: AssignableFrom, member: MethodInfo, i: int)
    requires 0 <= i < |implType.methods| && Eligible(implType, isAssignableFrom, member, i)
    ensures SelectImplementation(implType, isAssignableFrom, member).Some?
  {
    var candidates := Candidates(implType, member);
    var m := implType.methods[i];
    assert m in PublicMethods(implType);
    assert SameName(member)(m);
    assert m in candidates;
    var k :| 0 <= k < |candidates| && candidates[k] == m;
    assert MatchesExactly(member)(candidates[k]) || MatchesAssignably(isAssignableFrom, member)(candidates[k]);
  }

  lemma SelectedIsEligible(implType: TypeInfo, isAssignableFrom: AssignableFrom, member: MethodInfo)
    requires SelectImplementation(implType, isAssignableFrom, member).Some?
    ensures exists i :: 0 <= i < |implType.methods| && Eligible(implType, isAssignableFrom, member, i)
  {
    var m := SelectImplementation(implType, isAssignableFrom, member).value;
    assert MatchesExactly(member)(m) || MatchesAssignably(isAssignableFrom, member)(m);
    var i :| 0 <= i < |implType.methods| && implType.methods[i] == m;
    assert Eligible(implType, isAssignableFrom, member, i);
  }

  /**
   * The body is direct exactly when the wrapped type has a public method of
   * the contract method's name whose parameter list is identical to, or
   * assignable to, the contract method's.
   */
  lemma DirectIffCandidate(implType: TypeInfo, isAssignableFrom: AssignableFrom, member: MethodInfo)
    ensures BindingFor(implType, isAssignableFrom, member).Direct? <==>
              exists i :: 0 <= i < |implType.methods| && Eligible(implType, isAssignableFrom, member, i)
  {
    if SelectImplementation(implType, isAssignableFrom, member).Some? {
      SelectedIsEligible(implType, isAssignableFrom, member);
    }
    if exists i :: 0 <= i < |implType.methods| && Eligible(implType, isAssignableFrom, member, i) {
      var i :| 0 <= i < |implType.methods| && Eligible(implType, isAssignableFrom, member, i);
      EligibleIsSelected(implType, isAssignableFrom, member, i);
    }
  }

  // ---------------------------------------------------------------------
  // Forwarding bodies and their meaning
  // ---------------------------------------------------------------------

  datatype Step =
    | LoadWrapped(fieldType: Type)                       // ldarg.0; ldfld __Inst_ (a field of fieldType)
    | LoadArgument(position: nat, parameterType: Type)   // ldarg position + 1
    | CallTarget(target: MethodInfo)                     // callvirt target
    | BeginLookup(owner: Type, name: string)             // ldtoken owner; call GetTypeFromHandle; ldstr name; ldc.i4 flags; ldnull
    | NewTypeArray(length: nat)                          // ldc.i4 length; newarr Type; stloc types
    | SetType(index: nat, elementType: Type)             // ldloc types; ldc.i4 index; ldtoken; call GetTypeFromHandle; stelem.ref
    | LookupMethod                                       // ldloc types; ldnull; callvirt Type.GetMethod; stloc m; ldloc m
    | NewArgumentArray(length: nat)                      // ldc.i4 length; newarr object; stloc args
    | SetArgument(index: nat, position: nat, parameterType: Type, box: bool)
                                                         // ldloc args; ldc.i4 index; ldarg position + 1; [box]; stelem.ref
    | InvokeFound                                        // ldloc args; callvirt MethodBase.Invoke(object, object[])
    | UnboxResult(resultType: Type)                      // unbox.any resultType
    | StoreResult(localType: Type)                       // stloc result, a local of localType
    | LoadResult                                         // ldloc result
    | DiscardResult                                      // pop
    | Return                                             // ret

  /** Symbolic values on the evaluation stack and in the arrays. */
  datatype Operand =
    | NullRef
    | Wrapped(fieldType: Type)                           // the wrapped instance, this.__Inst_
    | Argument(position: nat, declaredType: Type)        // the contract method's argument at `position`
    | Boxed(boxed: Operand)
    | Unboxed(unboxed: Operand, resultType: Type)
    | LookupTarget(owner: Type, name: string)            // the receiver and leading arguments of Type.GetMethod
    | FoundMethod(owner: Type, name: string, types: seq<Type>)  // result of owner.GetMethod(name, flags, null, types, null)
    | Returned(call: Call)                               // what `call` returned

  datatype Callee = Static(target: MethodInfo) | Reflective(found: Operand)

  datatype Call = Call(callee: Callee, receiver: Operand, arguments: seq<Operand>)

  /** Evaluation stack, the Type[] and object[] locals, the result local, and the calls made so far. */
  datatype Machine = Machine(
    stack: seq<Operand>,
    types: seq<Option<Type>>,
    args: seq<Operand>,
    result: Option<Operand>,
    calls: seq<Call>)

  const Entry := Machine([], [], [], None, [])

  /** The array elements when none is null. */
  function AllSet(s: seq<Option<Type>>): Option<seq<Type>>
  {
    if forall k :: 0 <= k < |s| ==> s[k].Some? then Some(seq(|s|, k requires 0 <= k < |s| => s[k].value)) else None
  }

  /**
   * Whether an operand is a value of a value type (true) or an object
   * reference (false), where the body determines it: the wrapped instance
   * and an argument have their declared types, a direct call returns its
   * target's return type, MethodBase.Invoke returns an object, boxing makes
   * a reference and unbox.any a value of the named type.
   */
  function Representation(o: Operand): Option<bool>
  {
    match o
    case Wrapped(t) => Some(t.isValueType)
    case Argument(_, t) => Some(t.isValueType)
    case Returned(Call(Static(t), _, _)) => Some(t.returnType.isValueType)
    case Returned(Call(Reflective(_), _, _)) => Some(false)
    case Unboxed(_, t) => Some(t.isValueType)
    case Boxed(_) => Some(false)
    case _ => None
  }

  /** A slot of type slotType (a local, a parameter) takes only an operand of that type's representation. */
  predicate Fits(o: Operand, slotType: Type)
  {
    Representation(o).None? || Representation(o).value == slotType.isValueType
  }

  /** Every argument fits the parameter it is passed to. */
  predicate FitAll(arguments: seq<Operand>, parameterTypes: seq<Type>)
    requires |arguments| == |parameterTypes|
  {
    forall i :: 0 <= i < |arguments| ==> Fits(arguments[i], parameterTypes[i])
  }

  /** A receiver of callvirt, or of MethodBase.Invoke's object parameter, must be a reference, not a struct value. */
  predicate Receivable(o: Operand)
  {
    Representation(o) != Some(true)
  }

  /**
   * One step; None when the step underflows the stack, indexes outside an
   * array, calls a static method with callvirt, calls on a struct value
   * rather than a reference, or stores or passes a value of the wrong
   * representation: each of these is an invalid program.
   */
  function Exec(step: Step, m: Machine): Option<Machine>
  {
    match step
    case LoadWrapped(t) => Some(m.(stack := m.stack + [Wrapped(t)]))
    case LoadArgument(p, t) => Some(m.(stack := m.stack + [Argument(p, t)]))
    case CallTarget(t) =>
      var k := |t.parameterTypes|;
      if t.isStatic || |m.stack| < k + 1 then None
      else
        var base := |m.stack| - k - 1;
        var call := Call(Static(t), m.stack[base], m.stack[base + 1..]);
        if !Receivable(m.stack[base]) || !FitAll(m.stack[base + 1..], t.parameterTypes) then None
        else Some(m.(stack := m.stack[..base] + (if t.returnType != Void then [Returned(call)] else []),
                calls := m.calls + [call]))
    case NewTypeArray(n) => Some(m.(types := seq(n, _ => None)))
    case SetType(i, t) => if i < |m.types| then Some(m.(types := m.types[i := Some(t)])) else None
    case BeginLookup(owner, name) => Some(m.(stack := m.stack + [LookupTarget(owner, name)]))
    case LookupMethod =>
      var n := |m.stack|;
      if n == 0 || !m.stack[n - 1].LookupTarget? then None
      else
        (match AllSet(m.types)
         case None => None
         case Some(ts) => Some(m.(stack := m.stack[..n - 1] + [FoundMethod(m.stack[n - 1].owner, m.stack[n - 1].name, ts)])))
    case NewArgumentArray(n) => Some(m.(args := seq(n, _ => NullRef)))
    case SetArgument(i, p, t, box) =>
      var element := if box then Boxed(Argument(p, t)) else Argument(p, t);
      if i < |m.args| && Receivable(element) then Some(m.(args := m.args[i := element])) else None
    case InvokeFound =>
      var n := |m.stack|;
      if n < 2 || !Receivable(m.stack[n - 1]) then None
      else
        var call := Call(Reflective(m.stack[n - 2]), m.stack[n - 1], m.args);
        Some(m.(stack := m.stack[..n - 2] + [Returned(call)], calls := m.calls + [call]))
    case UnboxResult(t) =>
      var n := |m.stack|;
      if n == 0 then None else Some(m.(stack := m.stack[..n - 1] + [Unboxed(m.stack[n - 1], t)]))
    case StoreResult(localType) =>
      var n := |m.stack|;
      if n == 0 || !Fits(m.stack[n - 1], localType) then None else Some(m.(stack := m.stack[..n - 1], result := Some(m.stack[n - 1])))
    case LoadResult => if m.result.None? then None else Some(m.(stack := m.stack + [m.result.value]))
    case DiscardResult =>
      var n := |m.stack|;
      if n == 0 then None else Some(m.(stack := m.stack[..n - 1]))
    case Return => None
  }

  /** The steps in order; None as soon as one fails. */
  function Steps(body: seq<Step>, m: Machine): Option<Machine>
    decreases |body|
  {
    if body == [] then Some(m)
    else
      match Steps(body[..|body| - 1], m)
      case None => None
      case Some(m') => Exec(body[|body| - 1], m')
  }

  datatype Outcome = Completed(value: Option<Operand>, calls: seq<Call>) | Invalid

  /**
   * A body runs from method entry to its final `ret`, which needs exactly
   * the return value on the stack (nothing for a void method); anything
   * else is an invalid program.
   */
  function Run(body: seq<Step>, hasReturn: bool): Outcome
  {
    if body == [] || body[|body| - 1] != Return then Invalid
    else
      match Steps(body[..|body| - 1], Entry)
      case None => Invalid
      case Some(m) =>
        if hasReturn && |m.stack| == 1 then Completed(Some(m.stack[0]), m.calls)
        else if !hasReturn && m.stack == [] then Completed(None, m.calls)
        else Invalid
  }

  lemma StepsSnoc(body: seq<Step>, step: Step, m: Machine)
    ensures Steps(body + [step], m) == (match Steps(body, m) case None => None case Some(m') => Exec(step, m'))
  {
    assert (body + [step])[..|body + [step]| - 1] == body;
  }

  function HasReturn(member: MethodInfo): bool
  {
    member.returnType != Void
  }

  /** The contract's arguments, in order, each of its declared type. */
  function Positional(parameterTypes: seq<Type>): seq<Operand>
  {
    seq(|parameterTypes|, i requires 0 <= i < |parameterTypes| => Argument(i, parameterTypes[i]))
  }

  /** Argument i, boxed when its declared type is a value type. */
  function Carried(parameterTypes: seq<Type>, i: nat): Operand
    requires i < |parameterTypes|
  {
    if parameterTypes[i].isValueType then Boxed(Argument(i, parameterTypes[i])) else Argument(i, parameterTypes[i])
  }

  function CarriedArguments(parameterTypes: seq<Type>): seq<Operand>
  {
    seq(|parameterTypes|, i requires 0 <= i < |parameterTypes| => Carried(parameterTypes, i))
  }

  /** The call a direct body makes: the target, on the wrapped instance, with the arguments in order. */
  function DirectCall(owner: Type, member: MethodInfo, target: MethodInfo): Call
  {
    Call(Static(target), Wrapped(owner), Positional(member.parameterTypes))
  }

  /**
   * The call a reflective body makes: the method found by name and the
   * declared parameter types on `owner`, on the wrapped instance, with the
   * boxed-argument array.
   */
  function ReflectiveCall(owner: Type, member: MethodInfo): Call
  {
    Call(Reflective(FoundMethod(owner, member.name, member.parameterTypes)), Wrapped(owner), CarriedArguments(member.parameterTypes))
  }

  /**
   * What a forwarding body is meant to do: make exactly one call and return
   * its result (unboxed on the reflective path for a value type) when the
   * contract method is not void.
   */
  function Forwarded(binding: Binding, owner: Type, member: MethodInfo): Outcome
  {
    match binding
    case Direct(target) =>
      var call := DirectCall(owner, member, target);
      Completed(if HasReturn(member) then Some(Returned(call)) else None, [call])
    case Dynamic =>
      var call := ReflectiveCall(owner, member);
      var result := if member.returnType.isValueType then Unboxed(Returned(call), member.returnType) else Returned(call);
      Completed(if HasReturn(member) then Some(result) else None, [call])
  }

  /** The machine after a direct call from an empty stack. */
  function AfterCall(call: Call, target: MethodInfo): Machine
  {
    Entry.(stack := if target.returnType != Void then [Returned(call)] else [], calls := [call])
  }

  /** One more step from a state the body is known to reach. */
  lemma Extend(body: seq<Step>, step: Step, before: Machine, after: Machine)
    requires Steps(body, Entry) == Some(before) && Exec(step, before) == Some(after)
    ensures Steps(body + [step], Entry) == Some(after)
  {
    StepsSnoc(body, step, Entry);
  }

  /** The stack of a direct body once the receiver and the first i arguments are loaded. */
  function LoadedStack(fieldType: Type, parameterTypes: seq<Type>, i: nat): seq<Operand>
    requires i <= |parameterTypes|
  {
    if i == 0 then [Wrapped(fieldType)] else LoadedStack(fieldType, parameterTypes, i - 1) + [Argument(i - 1, parameterTypes[i - 1])]
  }

  lemma {:induction false} LoadedStackShape(fieldType: Type, parameterTypes: seq<Type>, i: nat)
    requires i <= |parameterTypes|
    ensures LoadedStack(fieldType, parameterTypes, i) == [Wrapped(fieldType)] + Positional(parameterTypes[..i])
  {
    if i > 0 {
      LoadedStackShape(fieldType, parameterTypes, i - 1);
      assert Positional(parameterTypes[..i - 1]) + [Argument(i - 1, parameterTypes[i - 1])] == Positional(parameterTypes[..i]);
    }
  }

  function Loaded(fieldType: Type, parameterTypes: seq<Type>, i: nat): Machine
    requires i <= |parameterTypes|
  {
    Entry.(stack := LoadedStack(fieldType, parameterTypes, i))
  }

  lemma LoadWrappedFirst(fieldType: Type, parameterTypes: seq<Type>)
    ensures Steps([LoadWrapped(fieldType)], Entry) == Some(Loaded(fieldType, parameterTypes, 0))
  {
    assert [] + [LoadWrapped(fieldType)] == [LoadWrapped(fieldType)];
    assert Entry.stack + [Wrapped(fieldType)] == [Wrapped(fieldType)];
    Extend([], LoadWrapped(fieldType), Entry, Loaded(fieldType, parameterTypes, 0));
  }

  lemma LoadArgumentStep(body: seq<Step>, fieldType: Type, parameterTypes: seq<Type>, i: nat)
    requires i < |parameterTypes| && Steps(body, Entry) == Some(Loaded(fieldType, parameterTypes, i))
    ensures Steps(body + [LoadArgument(i, parameterTypes[i])], Entry) == Some(Loaded(fieldType, parameterTypes, i + 1))
  {
    Extend(body, LoadArgument(i, parameterTypes[i]), Loaded(fieldType, parameterTypes, i), Loaded(fieldType, parameterTypes, i + 1));
  }

  /**
   * callvirt on the wrapped instance is a valid call of the target when the
   * target is an instance method, the instance is a reference (the field's
   * type is not a struct), and each argument has the representation of the
   * parameter it is passed to.
   */
  predicate CallValid(fieldType: Type, parameterTypes: seq<Type>, target: MethodInfo)
    requires |target.parameterTypes| == |parameterTypes|
  {
    !target.isStatic && !fieldType.isValueType
    && forall i :: 0 <= i < |parameterTypes| ==> parameterTypes[i].isValueType == target.parameterTypes[i].isValueType
  }

  /** With everything loaded, callvirt sees the wrapped instance as receiver and the arguments in order. */
  lemma LoadedAll(fieldType: Type, parameterTypes: seq<Type>)
    ensures var stack := LoadedStack(fieldType, parameterTypes, |parameterTypes|);
            |stack| == |parameterTypes| + 1 && stack[0] == Wrapped(fieldType) && stack[1..] == Positional(parameterTypes)
  {
    LoadedStackShape(fieldType, parameterTypes, |parameterTypes|);
    assert parameterTypes[..|parameterTypes|] == parameterTypes;
  }

  /** The arguments fit the target's parameters exactly when each agrees with it in representation. */
  lemma PositionalFits(parameterTypes: seq<Type>, target: MethodInfo)
    requires |target.parameterTypes| == |parameterTypes|
    ensures FitAll(Positional(parameterTypes), target.parameterTypes)
            <==> forall i :: 0 <= i < |parameterTypes| ==> parameterTypes[i].isValueType == target.parameterTypes[i].isValueType
  {
    var args := Positional(parameterTypes);
    if !FitAll(args, target.parameterTypes) {
      var i :| 0 <= i < |args| && !Fits(args[i], target.parameterTypes[i]);
      assert parameterTypes[i].isValueType != target.parameterTypes[i].isValueType;
    }
  }

  lemma CallTargetStep(body: seq<Step>, fieldType: Type, parameterTypes: seq<Type>, target: MethodInfo)
    requires |target.parameterTypes| == |parameterTypes|
    requires Steps(body, Entry) == Some(Loaded(fieldType, parameterTypes, |parameterTypes|))
    ensures Steps(body + [CallTarget(target)], Entry)
            == if CallValid(fieldType, parameterTypes, target)
               then Some(AfterCall(Call(Static(target), Wrapped(fieldType), Positional(parameterTypes)), target))
               else None
  {
    StepsSnoc(body, CallTarget(target), Entry);
    LoadedAll(fieldType, parameterTypes);
    PositionalFits(parameterTypes, target);
    if CallValid(fieldType, parameterTypes, target) {
      var n := |parameterTypes|;
      var stack := LoadedStack(fieldType, parameterTypes, n);
      assert stack[..0] == [];
      var call := Call(Static(target), Wrapped(fieldType), Positional(parameterTypes));
      assert Entry.calls + [call] == [call];
      assert [] + (if target.returnType != Void then [Returned(call)] else []) == AfterCall(call, target).stack;
      Extend(body, CallTarget(target), Loaded(fieldType, parameterTypes, n), AfterCall(call, target));
    }
  }

  /**
   * Load the wrapped instance, then every argument in position order, then
   * call the target with callvirt, which is an invalid program unless the
   * call is valid: an instance target, a reference receiver, and arguments
   * of the parameters' representations.
   */
  method SafeImpl(fieldType: Type, parameterTypes: seq<Type>, target: MethodInfo) returns (body: seq<Step>)
    requires |target.parameterTypes| == |parameterTypes|
    ensures Steps(body, Entry) == if CallValid(fieldType, parameterTypes, target)
                                  then Some(AfterCall(Call(Static(target), Wrapped(fieldType), Positional(parameterTypes)), target))
                                  else None
  {
    body := [LoadWrapped(fieldType)];
    LoadWrappedFirst(fieldType, parameterTypes);
    var i := 0;
    while i < |parameterTypes|
      invariant 0 <= i <= |parameterTypes|
      invariant Steps(body, Entry) == Some(Loaded(fieldType, parameterTypes, i))
    {
      LoadArgumentStep(body, fieldType, parameterTypes, i);
      body := body + [LoadArgument(i, parameterTypes[i])];
      i := i + 1;
    }
    CallTargetStep(body, fieldType, parameterTypes, target);
    body := body + [CallTarget(target)];
  }

  function TypesUpTo(parameterTypes: seq<Type>, i: nat): seq<Option<Type>>
  {
    seq(|parameterTypes|, k requires 0 <= k < |parameterTypes| => if k < i then Some(parameterTypes[k]) else None)
  }

  function ArgumentsUpTo(parameterTypes: seq<Type>, i: nat): seq<Operand>
  {
    seq(|parameterTypes|, k requires 0 <= k < |parameterTypes| => if k < i then Carried(parameterTypes, k) else NullRef)
  }

  /** A reflective body once the lookup's receiver is loaded and the first i entries of the Type[] are set. */
  function TypesFilling(owner: Type, member: MethodInfo, i: nat): Machine
  {
    Entry.(stack := [LookupTarget(owner, member.name)], types := TypesUpTo(member.parameterTypes, i))
  }

  /** A reflective body once the method is looked up, the receiver loaded and the first i arguments stored. */
  function ArgumentsFilling(owner: Type, member: MethodInfo, i: nat): Machine
  {
    var parameterTypes := member.parameterTypes;
    Machine([FoundMethod(owner, member.name, parameterTypes), Wrapped(owner)],
            TypesUpTo(parameterTypes, |parameterTypes|), ArgumentsUpTo(parameterTypes, i), None, [])
  }

  /** A reflective body once MethodBase.Invoke has been called. */
  function Invoked(owner: Type, member: MethodInfo): Machine
  {
    var parameterTypes := member.parameterTypes;
    var call := ReflectiveCall(owner, member);
    Machine([Returned(call)], TypesUpTo(parameterTypes, |parameterTypes|), CarriedArguments(parameterTypes), None, [call])
  }

  lemma BeginLookupFirst(owner: Type, member: MethodInfo)
    ensures Steps([BeginLookup(owner, member.name), NewTypeArray(|member.parameterTypes|)], Entry)
            == Some(TypesFilling(owner, member, 0))
  {
    var target := LookupTarget(owner, member.name);
    var loaded := Entry.(stack := [target]);
    assert [] + [BeginLookup(owner, member.name)] == [BeginLookup(owner, member.name)];
    assert Entry.stack + [target] == [target];
    Extend([], BeginLookup(owner, member.name), Entry, loaded);
    assert TypesUpTo(member.parameterTypes, 0) == seq(|member.parameterTypes|, _ => None);
    Extend([BeginLookup(owner, member.name)], NewTypeArray(|member.parameterTypes|), loaded, TypesFilling(owner, member, 0));
    assert [BeginLookup(owner, member.name)] + [NewTypeArray(|member.parameterTypes|)]
           == [BeginLookup(owner, member.name), NewTypeArray(|member.parameterTypes|)];
  }

  lemma SetTypeStep(body: seq<Step>, owner: Type, member: MethodInfo, i: nat)
    requires i < |member.parameterTypes| && Steps(body, Entry) == Some(TypesFilling(owner, member, i))
    ensures Steps(body + [SetType(i, member.parameterTypes[i])], Entry) == Some(TypesFilling(owner, member, i + 1))
  {
    var parameterTypes := member.parameterTypes;
    assert TypesUpTo(parameterTypes, i)[i := Some(parameterTypes[i])] == TypesUpTo(parameterTypes, i + 1);
    Extend(body, SetType(i, parameterTypes[i]), TypesFilling(owner, member, i), TypesFilling(owner, member, i + 1));
  }

  lemma TypesFilled(parameterTypes: seq<Type>)
    ensures AllSet(TypesUpTo(parameterTypes, |parameterTypes|)) == Some(parameterTypes)
  {
    var filled := TypesUpTo(parameterTypes, |parameterTypes|);
    assert forall k :: 0 <= k < |filled| ==> filled[k] == Some(parameterTypes[k]);
    assert seq(|filled|, k requires 0 <= k < |filled| => filled[k].value) == parameterTypes;
  }

  lemma LookupStep(body: seq<Step>, owner: Type, member: MethodInfo)
    requires Steps(body, Entry) == Some(TypesFilling(owner, member, |member.parameterTypes|))
    ensures Steps(body + [LookupMethod, LoadWrapped(owner), NewArgumentArray(|member.parameterTypes|)], Entry)
            == Some(ArgumentsFilling(owner, member, 0))
  {
    var parameterTypes := member.parameterTypes;
    var n := |parameterTypes|;
    var found := FoundMethod(owner, member.name, parameterTypes);
    var filling := TypesFilling(owner, member, n);
    var wrapped := Wrapped(owner);
    TypesFilled(parameterTypes);
    assert filling.stack[..0] + [found] == [found];
    Extend(body, LookupMethod, filling, filling.(stack := [found]));
    assert [found] + [wrapped] == [found, wrapped];
    Extend(body + [LookupMethod], LoadWrapped(owner), filling.(stack := [found]), filling.(stack := [found, wrapped]));
    assert ArgumentsUpTo(parameterTypes, 0) == seq(n, _ => NullRef);
    Extend(body + [LookupMethod] + [LoadWrapped(owner)], NewArgumentArray(n),
           filling.(stack := [found, wrapped]), ArgumentsFilling(owner, member, 0));
    assert body + [LookupMethod] + [LoadWrapped(owner)] + [NewArgumentArray(n)]
           == body + [LookupMethod, LoadWrapped(owner), NewArgumentArray(n)];
  }

  lemma SetArgumentStep(body: seq<Step>, owner: Type, member: MethodInfo, i: nat)
    requires i < |member.parameterTypes| && Steps(body, Entry) == Some(ArgumentsFilling(owner, member, i))
    ensures Steps(body + [SetArgument(i, i, member.parameterTypes[i], member.parameterTypes[i].isValueType)], Entry)
            == Some(ArgumentsFilling(owner, member, i + 1))
  {
    var parameterTypes := member.parameterTypes;
    assert ArgumentsUpTo(parameterTypes, i)[i := Carried(parameterTypes, i)] == ArgumentsUpTo(parameterTypes, i + 1);
    Extend(body, SetArgument(i, i, parameterTypes[i], parameterTypes[i].isValueType), ArgumentsFilling(owner, member, i), ArgumentsFilling(owner, member, i + 1));
  }

  /** MethodBase.Invoke takes the instance as an object: a struct instance loaded by ldfld is not one. */
  lemma InvokeStep(body: seq<Step>, owner: Type, member: MethodInfo)
    requires Steps(body, Entry) == Some(ArgumentsFilling(owner, member, |member.parameterTypes|))
    ensures Steps(body + [InvokeFound], Entry) == if owner.isValueType then None else Some(Invoked(owner, member))
  {
    StepsSnoc(body, InvokeFound, Entry);
    if owner.isValueType {
      return;
    }
    var parameterTypes := member.parameterTypes;
    var before := ArgumentsFilling(owner, member, |parameterTypes|);
    assert ArgumentsUpTo(parameterTypes, |parameterTypes|) == CarriedArguments(parameterTypes);
    var call := ReflectiveCall(owner, member);
    assert before.stack[..0] + [Returned(call)] == [Returned(call)];
    assert before.calls + [call] == [call];
    Extend(body, InvokeFound, before, Invoked(owner, member));
  }

  /** A reflective body's final state: the invoked method's result, unboxed when a value type is returned. */
  function Reflected(owner: Type, member: MethodInfo): Machine
  {
    var call := ReflectiveCall(owner, member);
    var value := if HasReturn(member) && member.returnType.isValueType
                 then Unboxed(Returned(call), member.returnType) else Returned(call);
    Invoked(owner, member).(stack := [value])
  }

  lemma UnboxStep(body: seq<Step>, owner: Type, member: MethodInfo)
    requires HasReturn(member) && member.returnType.isValueType
    requires Steps(body, Entry) == Some(Invoked(owner, member))
    ensures Steps(body + [UnboxResult(member.returnType)], Entry) == Some(Reflected(owner, member))
  {
    var before := Invoked(owner, member);
    var unboxed := Unboxed(Returned(ReflectiveCall(owner, member)), member.returnType);
    assert before.stack[..0] + [unboxed] == [unboxed];
    Extend(body, UnboxResult(member.returnType), before, before.(stack := [unboxed]));
  }

  /** Load the lookup's receiver and name, then fill a new Type[] with the declared parameter types. */
  method EmitTypeArray(owner: Type, member: MethodInfo) returns (body: seq<Step>)
    ensures Steps(body, Entry) == Some(TypesFilling(owner, member, |member.parameterTypes|))
  {
    var parameterTypes := member.parameterTypes;
    body := [BeginLookup(owner, member.name), NewTypeArray(|parameterTypes|)];
    BeginLookupFirst(owner, member);
    var i := 0;
    while i < |parameterTypes|
      invariant 0 <= i <= |parameterTypes|
      invariant Steps(body, Entry) == Some(TypesFilling(owner, member, i))
    {
      SetTypeStep(body, owner, member, i);
      body := body + [SetType(i, parameterTypes[i])];
      i := i + 1;
    }
  }

  /** Store every argument into the object[], boxing those of a value type. */
  method EmitArgumentArray(prefix: seq<Step>, owner: Type, member: MethodInfo) returns (body: seq<Step>)
    requires Steps(prefix, Entry) == Some(ArgumentsFilling(owner, member, 0))
    ensures Steps(body, Entry) == Some(ArgumentsFilling(owner, member, |member.parameterTypes|))
  {
    var parameterTypes := member.parameterTypes;
    body := prefix;
    var i := 0;
    while i < |parameterTypes|
      invariant 0 <= i <= |parameterTypes|
      invariant Steps(body, Entry) == Some(ArgumentsFilling(owner, member, i))
    {
      SetArgumentStep(body, owner, member, i);
      body := body + [SetArgument(i, i, parameterTypes[i], parameterTypes[i].isValueType)];
      i := i + 1;
    }
  }

  /**
   * Look the method up by name and the declared parameter types on `owner`;
   * load the wrapped instance; build the object[] of arguments; invoke;
   * unbox a value-type result.
   */
  method UnsafeImpl(owner: Type, member: MethodInfo) returns (body: seq<Step>)
    ensures Steps(body, Entry) == if owner.isValueType then None else Some(Reflected(owner, member))
  {
    body := EmitTypeArray(owner, member);
    LookupStep(body, owner, member);
    body := body + [LookupMethod, LoadWrapped(owner), NewArgumentArray(|member.parameterTypes|)];
    body := EmitArgumentArray(body, owner, member);
    InvokeStep(body, owner, member);
    body := body + [InvokeFound];
    if HasReturn(member) && member.returnType.isValueType {
      if owner.isValueType {
        StepsFailed(body, [UnboxResult(member.returnType)], Entry);
      } else {
        UnboxStep(body, owner, member);
      }
      body := body + [UnboxResult(member.returnType)];
    }
  }

  lemma DiscardStep(body: seq<Step>, owner: Type, member: MethodInfo)
    requires !HasReturn(member)
    requires Steps(body, Entry) == if owner.isValueType then None else Some(Reflected(owner, member))
    ensures Steps(body + [DiscardResult], Entry) == if owner.isValueType then None else Some(Reflected(owner, member).(stack := []))
  {
    StepsSnoc(body, DiscardResult, Entry);
    if !owner.isValueType {
      var before := Reflected(owner, member);
      assert before.stack[..0] == [];
      Extend(body, DiscardResult, before, before.(stack := []));
    }
  }

  /** What follows the call: store the result in a local of the return type and reload it for a non-void method, then return. */
  function Tail(member: MethodInfo): seq<Step>
  {
    if HasReturn(member) then [StoreResult(member.returnType), LoadResult, Return] else [Return]
  }

  /**
   * The tail completes the body when the fragment leaves exactly the return
   * value, of the return type's representation, on the stack (nothing for a
   * void method).
   */
  lemma RunWithTail(fragment: seq<Step>, mid: Machine, member: MethodInfo)
    requires Steps(fragment, Entry) == Some(mid) && mid.result.None?
    ensures Run(fragment + Tail(member), HasReturn(member)) ==
              if |mid.stack| == (if HasReturn(member) then 1 else 0)
                 && (HasReturn(member) ==> Fits(mid.stack[0], member.returnType))
              then Completed(if HasReturn(member) then Some(mid.stack[0]) else None, mid.calls)
              else Invalid
  {
    var body := fragment + Tail(member);
    var store := StoreResult(member.returnType);
    if HasReturn(member) {
      assert body[..|body| - 1] == (fragment + [store]) + [LoadResult];
      StepsSnoc(fragment, store, Entry);
      StepsSnoc(fragment + [store], LoadResult, Entry);
      if |mid.stack| > 0 {
        var n := |mid.stack|;
        if Fits(mid.stack[n - 1], member.returnType) {
          var after := Steps(body[..|body| - 1], Entry).value;
          assert after.stack == mid.stack[..n - 1] + [mid.stack[n - 1]];
        }
      }
    } else {
      assert body[..|body| - 1] == fragment;
    }
  }

  lemma {:induction false} StepsFailed(body: seq<Step>, rest: seq<Step>, m: Machine)
    requires Steps(body, m) == None
    ensures Steps(body + rest, m) == None
    decreases |rest|
  {
    if rest != [] {
      var front := rest[..|rest| - 1];
      StepsFailed(body, front, m);
      assert (body + rest)[..|body + rest| - 1] == body + front;
    } else {
      assert body + rest == body;
    }
  }

  /** A fragment that is already an invalid program stays one whatever follows it. */
  lemma FailedRunsInvalid(fragment: seq<Step>, member: MethodInfo)
    requires Steps(fragment, Entry) == None
    ensures Run(fragment + Tail(member), HasReturn(member)) == Invalid
  {
    var body := fragment + Tail(member);
    var tail := Tail(member);
    assert body[..|body| - 1] == fragment + tail[..|tail| - 1];
    StepsFailed(fragment, tail[..|tail| - 1], Entry);
  }

  /**
   * A direct body is a valid program when the call is valid (an instance
   * target, a reference receiver, arguments of the parameters'
   * representations) and the target agrees with the contract method on
   * returning a value and, when both do, on returning a value type or an
   * object reference.
   */
  predicate DirectValid(owner: Type, member: MethodInfo, target: MethodInfo)
    requires |target.parameterTypes| == |member.parameterTypes|
  {
    CallValid(owner, member.parameterTypes, target) && HasReturn(target) == HasReturn(member)
    && (HasReturn(member) ==> target.returnType.isValueType == member.returnType.isValueType)
  }

  /** A direct body runs as forwarded exactly when it is a valid program. */
  lemma DirectRuns(fragment: seq<Step>, owner: Type, member: MethodInfo, target: MethodInfo)
    requires |target.parameterTypes| == |member.parameterTypes|
    requires Steps(fragment, Entry) == if CallValid(owner, member.parameterTypes, target)
                                       then Some(AfterCall(DirectCall(owner, member, target), target)) else None
    ensures Run(fragment + Tail(member), HasReturn(member))
            == if DirectValid(owner, member, target) then Forwarded(Direct(target), owner, member) else Invalid
  {
    if !CallValid(owner, member.parameterTypes, target) {
      FailedRunsInvalid(fragment, member);
    } else {
      RunWithTail(fragment, AfterCall(DirectCall(owner, member, target), target), member);
    }
  }

  /**
   * A reflective body as written runs as forwarded only when the contract
   * method returns a value and the wrapped instance is not a struct.
   */
  lemma ReflectiveRuns(fragment: seq<Step>, owner: Type, member: MethodInfo)
    requires Steps(fragment, Entry) == if owner.isValueType then None else Some(Reflected(owner, member))
    ensures Run(fragment + Tail(member), HasReturn(member))
            == if HasReturn(member) && !owner.isValueType then Forwarded(Dynamic, owner, member) else Invalid
  {
    if owner.isValueType {
      FailedRunsInvalid(fragment, member);
    } else {
      RunWithTail(fragment, Reflected(owner, member), member);
    }
  }

  /** With the result discarded, a reflective body for a void method runs as forwarded when the wrapped instance is not a struct. */
  lemma ReflectiveDiscardRuns(fragment: seq<Step>, owner: Type, member: MethodInfo)
    requires !HasReturn(member)
    requires Steps(fragment, Entry) == if owner.isValueType then None else Some(Reflected(owner, member).(stack := []))
    ensures Run(fragment + Tail(member), false) == if owner.isValueType then Invalid else Forwarded(Dynamic, owner, member)
  {
    if owner.isValueType {
      FailedRunsInvalid(fragment, member);
    } else {
      RunWithTail(fragment, Reflected(owner, member).(stack := []), member);
    }
  }

  /**
   * MethodEmitter.Emit as written. A direct body makes the one forwarded
   * call and returns its result when it is a valid program; candidates are
   * selected by name and parameter types only, so a static candidate, one
   * whose parameters differ from the contract's in being value types or
   * references, or one that disagrees with the contract on returning a
   * value or on returning it by value or by reference, gives an invalid
   * program, and so does any body over a struct instance, which ldfld
   * loads as a value where callvirt and MethodBase.Invoke need a reference.
   * A reflective body is correct for a method that returns a value, but
   * for a void method it leaves MethodBase.Invoke's result on the stack at
   * `ret`.
   */
  method Emit(implType: TypeInfo, isAssignableFrom: AssignableFrom, member: MethodInfo) returns (body: seq<Step>)
    ensures var binding := BindingFor(implType, isAssignableFrom, member);
            match binding
            case Direct(target) =>
              Run(body, HasReturn(member)) == if DirectValid(implType.handle, member, target)
                                              then Forwarded(binding, implType.handle, member) else Invalid
            case Dynamic =>
              Run(body, HasReturn(member)) == if HasReturn(member) && !implType.handle.isValueType
                                              then Forwarded(binding, implType.handle, member) else Invalid
  {
    var implMethod := SelectImplementation(implType, isAssignableFrom, member);
    var fragment;
    if implMethod.Some? {
      fragment := SafeImpl(implType.handle, member.parameterTypes, implMethod.value);
      DirectRuns(fragment, implType.handle, member, implMethod.value);
    } else {
      fragment := UnsafeImpl(implType.handle, member);
      ReflectiveRuns(fragment, implType.handle, member);
    }
    body := fragment + Tail(member);
  }

  /**
   * Emit with the reflective body of a void method discarding the value
   * MethodBase.Invoke returns: every reflective body over a reference
   * instance, and every direct body that is a valid program, performs
   * exactly the one forwarded call and returns its result.
   */
  method EmitCorrected(implType: TypeInfo, isAssignableFrom: AssignableFrom, member: MethodInfo) returns (body: seq<Step>)
    ensures var binding := BindingFor(implType, isAssignableFrom, member);
            match binding
            case Direct(target) =>
              Run(body, HasReturn(member)) == if DirectValid(implType.handle, member, target)
                                              then Forwarded(binding, implType.handle, member) else Invalid
            case Dynamic =>
              Run(body, HasReturn(member)) == if !implType.handle.isValueType
                                              then Forwarded(binding, implType.handle, member) else Invalid
  {
    var hasReturn := HasReturn(member);
    var implMethod := SelectImplementation(implType, isAssignableFrom, member);
    var fragment;
    if implMethod.Some? {
      fragment := SafeImpl(implType.handle, member.parameterTypes, implMethod.value);
      DirectRuns(fragment, implType.handle, member, implMethod.value);
    } else {
      fragment := UnsafeImpl(implType.handle, member);
      if hasReturn {
        ReflectiveRuns(fragment, implType.handle, member);
      } else {
        DiscardStep(fragment, implType.handle, member);
        fragment := fragment + [DiscardResult];
        ReflectiveDiscardRuns(fragment, implType.handle, member);
      }
    }
    body := fragment + Tail(member);
  }
}
