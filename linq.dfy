/**
 * The LINQ operators the lookups are written with (Where, Select, Union,
 * FirstOrDefault), and a reference definition of what a two-tier lookup
 * "exact matches first, then assignable matches" picks.
 */
module Linq {
  import opened Wrappers

  /** Enumerable.Where: the elements of `s` that satisfy `p`, in enumeration order. */
  function Where<T>(s: seq<T>, p: T -> bool): (r: seq<T>)
    ensures |r| <= |s|
    ensures forall i :: 0 <= i < |r| ==> r[i] in s && p(r[i])
    ensures forall i :: 0 <= i < |s| && p(s[i]) ==> s[i] in r
  {
    if s == [] then [] else (if p(s[0]) then [s[0]] else []) + Where(s[1..], p)
  }

  /** Enumerable.Select */
  function Select<T, U>(s: seq<T>, f: T -> U): seq<U>
  {
    seq(|s|, i requires 0 <= i < |s| => f(s[i]))
  }

  /** Enumerable.Distinct: the first occurrence of every element, in order. */
  function Distinct<T(==)>(s: seq<T>): (r: seq<T>)
    ensures forall i :: 0 <= i < |r| ==> r[i] in s
    ensures forall i :: 0 <= i < |s| ==> s[i] in r
    ensures forall i, j :: 0 <= i < j < |r| ==> r[i] != r[j]
    decreases |s|
  {
    if s == [] then []
    else
      var d := Distinct(s[..|s| - 1]);
      if s[|s| - 1] in d then d else d + [s[|s| - 1]]
  }

  /** Where keeps enumeration order: filtering a concatenation filters each part in turn. */
  lemma {:induction false} WhereConcat<T>(a: seq<T>, b: seq<T>, p: T -> bool)
    ensures Where(a + b, p) == Where(a, p) + Where(b, p)
  {
    if a != [] {
      WhereConcat(a[1..], b, p);
      assert (a + b)[1..] == a[1..] + b;
      WhereCons(a + b, p);
      WhereCons(a, p);
    } else {
      assert a + b == b;
    }
  }

  /**
   * Distinct yields elements in the order of their first occurrence: the
   * distinct elements of a prefix come first, unchanged, whatever follows.
   */
  lemma {:induction false} DistinctPrefix<T>(a: seq<T>, b: seq<T>)
    ensures Distinct(a) <= Distinct(a + b)
    decreases |b|
  {
    if b != [] {
      var front := b[..|b| - 1];
      DistinctPrefix(a, front);
      assert (a + b)[..|a + b| - 1] == a + front;
    } else {
      assert a + b == a;
    }
  }

  /** Enumerable.Union: the distinct elements of `a`, then those of `b` not already yielded. */
  function Union<T(==)>(a: seq<T>, b: seq<T>): seq<T>
  {
    Distinct(a + b)
  }

  /** Enumerable.FirstOrDefault on a sequence of references: null (None) when empty. */
  function FirstOrDefault<T>(s: seq<T>): Option<T>
  {
    if s == [] then None else Some(s[0])
  }

  /** The index of the first element of `s` satisfying `p`, or |s| when there is none. */
  function IndexOfFirst<T>(s: seq<T>, p: T -> bool): (i: nat)
    ensures i <= |s|
    ensures forall j :: 0 <= j < i ==> !p(s[j])
    ensures i < |s| ==> p(s[i])
  {
    if s == [] then 0 else if p(s[0]) then 0 else 1 + IndexOfFirst(s[1..], p)
  }

  /**
   * Reference definition of a tiered lookup: the first element satisfying
   * `exact`; if there is none, the first satisfying `loose`; otherwise none.
   */
  function Preferred<T>(s: seq<T>, exact: T -> bool, loose: T -> bool): (r: Option<T>)
    ensures r.Some? ==> r.value in s && (exact(r.value) || loose(r.value))
    ensures (exists i :: 0 <= i < |s| && exact(s[i])) ==> r.Some? && exact(r.value)
    ensures r.Some? && !exact(r.value) ==> forall i :: 0 <= i < |s| ==> !exact(s[i])
    ensures r.None? <==> forall i :: 0 <= i < |s| ==> !exact(s[i]) && !loose(s[i])
  {
    var i := IndexOfFirst(s, exact);
    if i < |s| then Some(s[i])
    else
      var j := IndexOfFirst(s, loose);
      if j < |s| then Some(s[j]) else None
  }

  /** The head of Where(s, p) is the first element of `s` satisfying `p`. */
  lemma {:induction false} WhereHead<T>(s: seq<T>, p: T -> bool)
    ensures Where(s, p) == [] <==> IndexOfFirst(s, p) == |s|
    ensures Where(s, p) != [] ==> Where(s, p)[0] == s[IndexOfFirst(s, p)]
  {
    if s != [] && !p(s[0]) {
      WhereHead(s[1..], p);
    }
  }

  /** Distinct keeps the first element in front. */
  lemma {:induction false} DistinctHead<T>(s: seq<T>)
    requires s != []
    ensures Distinct(s) != [] && Distinct(s)[0] == s[0]
    decreases |s|
  {
    var prefix := s[..|s| - 1];
    if |s| > 1 {
      DistinctHead(prefix);
      assert prefix[0] == s[0];
    } else {
      assert prefix == [];
    }
  }

  /** FirstOrDefault(Union(exact matches, loose matches)) is the tiered lookup. */
  lemma FirstOfUnion<T>(s: seq<T>, exact: T -> bool, loose: T -> bool)
    ensures FirstOrDefault(Union(Where(s, exact), Where(s, loose))) == Preferred(s, exact, loose)
  {
    var a, b := Where(s, exact), Where(s, loose);
    WhereHead(s, exact);
    WhereHead(s, loose);
    if a + b != [] {
      DistinctHead(a + b);
      if a == [] {
        assert (a + b)[0] == b[0];
      } else {
        assert (a + b)[0] == a[0];
      }
    }
  }

  /** FirstOrDefault(Where(s, p)) is the first element satisfying `p`. */
  lemma FirstWhere<T>(s: seq<T>, p: T -> bool)
    ensures FirstOrDefault(Where(s, p)) == (var i := IndexOfFirst(s, p); if i < |s| then Some(s[i]) else None)
  {
    WhereHead(s, p);
  }

  /**
   * Filtering by `q` and then taking the first element satisfying `p` finds
   * the first element of `s` satisfying both, at or before any such `k`.
   */
  lemma {:induction false} FirstInFiltered<T>(s: seq<T>, q: T -> bool, p: T -> bool, k: nat)
    requires k < |s| && q(s[k]) && p(s[k])
    ensures var w := Where(s, q);
            var i := IndexOfFirst(w, p);
            var n := IndexOfFirst(s, Both(q, p));
            i < |w| && n <= k && w[i] == s[n]
  {
    if q(s[0]) && p(s[0]) {
      assert Both(q, p)(s[0]);
      assert Where(s, q)[0] == s[0];
    } else {
      assert !Both(q, p)(s[0]);
      FirstInFiltered(s[1..], q, p, k - 1);
      var n' := IndexOfFirst(s[1..], Both(q, p));
      assert IndexOfFirst(s, Both(q, p)) == 1 + n';
      assert s[1 + n'] == s[1..][n'];
      SkipFilteredHead(s, q, p);
    }
  }

  /** When the head does not satisfy both, the first match in the filtered sequence is the first in the filtered tail. */
  lemma SkipFilteredHead<T>(s: seq<T>, q: T -> bool, p: T -> bool)
    requires s != [] && !(q(s[0]) && p(s[0]))
    requires IndexOfFirst(Where(s[1..], q), p) < |Where(s[1..], q)|
    ensures var w, rest := Where(s, q), Where(s[1..], q);
            var i := IndexOfFirst(w, p);
            i < |w| && w[i] == rest[IndexOfFirst(rest, p)]
  {
    var w, rest := Where(s, q), Where(s[1..], q);
    WhereCons(s, q);
    if q(s[0]) {
      SkipHead(w, p);
      assert w[1..] == rest;
    } else {
      assert w == rest;
    }
  }

  lemma WhereCons<T>(s: seq<T>, q: T -> bool)
    requires s != []
    ensures Where(s, q) == if q(s[0]) then [s[0]] + Where(s[1..], q) else Where(s[1..], q)
  {
  }

  lemma SkipHead<T>(w: seq<T>, p: T -> bool)
    requires w != [] && !p(w[0]) && IndexOfFirst(w[1..], p) < |w[1..]|
    ensures IndexOfFirst(w, p) == 1 + IndexOfFirst(w[1..], p)
    ensures w[IndexOfFirst(w, p)] == w[1..][IndexOfFirst(w[1..], p)]
  {
  }

  /** Where yields at least two elements exactly when two positions of `s` satisfy `p`. */
  lemma {:induction false} WhereTwo<T>(s: seq<T>, p: T -> bool)
    ensures |Where(s, p)| >= 2 <==> exists i, j :: 0 <= i < j < |s| && p(s[i]) && p(s[j])
  {
    if s != [] {
      var rest := s[1..];
      WhereCons(s, p);
      WhereTwo(rest, p);
      if p(s[0]) {
        WhereOne(rest, p);
        if exists j :: 0 <= j < |rest| && p(rest[j]) {
          var j :| 0 <= j < |rest| && p(rest[j]);
          assert p(s[0]) && p(s[j + 1]);
        }
      }
      if exists i, j :: 0 <= i < j < |s| && p(s[i]) && p(s[j]) {
        var i, j :| 0 <= i < j < |s| && p(s[i]) && p(s[j]);
        assert p(rest[j - 1]);
        if i > 0 {
          assert p(rest[i - 1]);
        }
      }
    }
  }

  /** Where yields something exactly when some position of `s` satisfies `p`. */
  lemma WhereOne<T>(s: seq<T>, p: T -> bool)
    ensures |Where(s, p)| >= 1 <==> exists i :: 0 <= i < |s| && p(s[i])
  {
    if |Where(s, p)| >= 1 {
      var x := Where(s, p)[0];
      var i :| 0 <= i < |s| && s[i] == x;
    }
  }

  /**
   * A lookup that must find at most one member, as Type.GetProperty(name,
   * flags) and Type.GetEvent(name, flags) do: no member, the one member, or
   * an AmbiguousMatchException when there are several.
   */
  datatype Lookup<T> = NoMatch | Match(member: T) | AmbiguousMatch

  function SingleMatch<T(==)>(s: seq<T>, p: T -> bool): (r: Lookup<T>)
    ensures r.NoMatch? <==> forall i :: 0 <= i < |s| ==> !p(s[i])
    ensures r.AmbiguousMatch? <==> exists i, j :: 0 <= i < j < |s| && p(s[i]) && p(s[j])
    ensures r.Match? ==> r.member in s && p(r.member) && forall i :: 0 <= i < |s| && p(s[i]) ==> s[i] == r.member
  {
    var matches := Where(s, p);
    WhereOne(s, p);
    WhereTwo(s, p);
    if matches == [] then NoMatch else if |matches| == 1 then Match(matches[0]) else AmbiguousMatch
  }

  /** Both predicates at once. */
  function Both<T>(q: T -> bool, p: T -> bool): T -> bool
  {
    x => q(x) && p(x)
  }
}
