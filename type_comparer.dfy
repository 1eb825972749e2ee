/**
 * TypeComparer: positional comparison of two ordered parameter-type lists,
 * either by identity (Equals) or by one-directional assignability
 * (Assignable). Both walk the lists with a flag and stop at the first
 * mismatch; each is proved equal to a quantified predicate.
 */
module TypeComparer {
  import opened Types

  /** Same length, and the identical type at every position. */
  predicate SameTypes(first: seq<Type>, second: seq<Type>)
  {
    |first| == |second| && forall i :: 0 <= i < |first| ==> first[i] == second[i]
  }

  /** Same length, and first[i].IsAssignableFrom(second[i]) at every position. */
  predicate AssignableTypes(isAssignableFrom: AssignableFrom, first: seq<Type>, second: seq<Type>)
  {
    |first| == |second| && forall i :: 0 <= i < |first| ==> isAssignableFrom(first[i], second[i])
  }

  method Equals(first: seq<Type>, second: seq<Type>) returns (equals: bool)
    ensures equals <==> |first| == |second| && forall i :: 0 <= i < |first| ==> first[i] == second[i]
  {
    equals := false;
    if |first| == |second| {
      equals := true;
      var i := 0;
      while i < |first|
        invariant 0 <= i <= |first|
        invariant equals
        invariant forall k :: 0 <= k < i ==> first[k] == second[k]
      {
        if first[i] != second[i] {
          equals := false;
          break;
        }
        i := i + 1;
      }
    }
  }

  method Assignable(isAssignableFrom: AssignableFrom, first: seq<Type>, second: seq<Type>) returns (assignable: bool)
    ensures assignable <==> |first| == |second| && forall i :: 0 <= i < |first| ==> isAssignableFrom(first[i], second[i])
  {
    assignable := false;
    if |first| == |second| {
      assignable := true;
      var i := 0;
      while i < |first|
        invariant 0 <= i <= |first|
        invariant assignable
        invariant forall k :: 0 <= k < i ==> isAssignableFrom(first[k], second[k])
      {
        if !isAssignableFrom(first[i], second[i]) {
          assignable := false;
          break;
        }
        i := i + 1;
      }
    }
  }

  /** Positional identity is sequence equality. */
  lemma SameTypesIsEquality(first: seq<Type>, second: seq<Type>)
    ensures SameTypes(first, second) <==> first == second
  {
    if SameTypes(first, second) {
      assert first == second;
    }
  }

  /** Under a reflexive relation, identical lists are assignable. */
  lemma {:induction false} SameTypesAreAssignable(isAssignableFrom: AssignableFrom, first: seq<Type>, second: seq<Type>)
    requires Reflexive(isAssignableFrom)
    requires SameTypes(first, second)
    ensures AssignableTypes(isAssignableFrom, first, second)
  {
    forall i | 0 <= i < |first|
      ensures isAssignableFrom(first[i], second[i])
    {
      assert first[i] == second[i];
    }
  }

  /**
   * Assignability is one-directional: with object assignable from string
   * (and nothing else besides reflexivity), [object] accepts [string] but
   * [string] does not accept [object].
   */
  lemma AssignableIsDirectional()
    ensures var obj := Type("System.Object", false, true, false);
            var str := Type("System.String", false, true, true);
            var isAssignableFrom := (a: Type, b: Type) => a == b || (a == obj && b == str);
            Reflexive(isAssignableFrom)
            && AssignableTypes(isAssignableFrom, [obj], [str])
            && !AssignableTypes(isAssignableFrom, [str], [obj])
  {
    var obj := Type("System.Object", false, true, false);
    var str := Type("System.String", false, true, true);
    var isAssignableFrom := (a: Type, b: Type) => a == b || (a == obj && b == str);
    assert !isAssignableFrom(str, obj);
    assert !AssignableTypes(isAssignableFrom, [str], [obj]) by {
      assert [str][0] == str && [obj][0] == obj;
    }
  }
}
