/** Sums, first values and changes over sequences of parts. */
module Sums {
  import opened Types

  function Sum<T>(parts: seq<T>, f: T -> nat): nat {
    if parts == [] then 0 else Sum(parts[..|parts| - 1], f) + f(parts[|parts| - 1])
  }

  lemma {:induction false} SumOfBoth<T>(a: seq<T>, b: seq<T>, f: T -> nat)
    ensures Sum(a + b, f) == Sum(a, f) + Sum(b, f)
  {
    if b == [] {
      assert a + b == a;
    } else {
      assert (a + b)[..|a + b| - 1] == a + b[..|b| - 1];
      SumOfBoth(a, b[..|b| - 1], f);
    }
  }

  lemma SumOfOne<T>(x: T, f: T -> nat)
    ensures Sum([x], f) == f(x)
  {
    assert [x][..0] == [];
    assert Sum([x], f) == Sum([x][..0], f) + f(x);
  }

  /** The value is the first that is there. */
  ghost predicate IsFirst<T, V>(value: Option<V>, parts: seq<T>, f: T -> Option<V>) {
    if value.None? then forall i :: 0 <= i < |parts| ==> f(parts[i]).None?
    else exists i :: 0 <= i < |parts| && f(parts[i]) == value && forall j :: 0 <= j < i ==> f(parts[j]).None?
  }

  lemma FirstOfBoth<T, V>(x: Option<V>, a: seq<T>, y: Option<V>, b: seq<T>, f: T -> Option<V>)
    requires IsFirst(x, a, f) && IsFirst(y, b, f)
    ensures IsFirst(if x.Some? then x else y, a + b, f)
  {
    if x.Some? {
      var i :| 0 <= i < |a| && f(a[i]) == x && forall j :: 0 <= j < i ==> f(a[j]).None?;
      assert (a + b)[i] == a[i] && forall j :: 0 <= j < i ==> f((a + b)[j]).None?;
    } else if y.Some? {
      var i :| 0 <= i < |b| && f(b[i]) == y && forall j :: 0 <= j < i ==> f(b[j]).None?;
      assert (a + b)[|a| + i] == b[i];
      forall j | 0 <= j < |a| + i ensures f((a + b)[j]).None? {
        if j >= |a| { assert (a + b)[j] == b[j - |a|]; }
      }
    }
  }

  /** The least of the values. */
  ghost predicate IsMinimum<T>(value: int, parts: seq<T>, f: T -> int) {
    && (forall i :: 0 <= i < |parts| ==> value <= f(parts[i]))
    && (exists i :: 0 <= i < |parts| && value == f(parts[i]))
  }

  lemma MinimumOfBoth<T>(x: int, a: seq<T>, y: int, b: seq<T>, f: T -> int)
    requires IsMinimum(x, a, f) && IsMinimum(y, b, f)
    ensures IsMinimum(if x <= y then x else y, a + b, f)
  {
    var i :| 0 <= i < |a| && x == f(a[i]);
    var j :| 0 <= j < |b| && y == f(b[j]);
    assert (a + b)[i] == a[i] && (a + b)[|a| + j] == b[j];
    forall k | 0 <= k < |a + b| ensures (if x <= y then x else y) <= f((a + b)[k]) {
      if k >= |a| { assert (a + b)[k] == b[k - |a|]; }
    }
  }

  /** The greatest of the values that are there, and none if none is there. */
  ghost predicate IsMaximum<T>(value: Option<int>, parts: seq<T>, f: T -> Option<int>) {
    && (forall i :: 0 <= i < |parts| && f(parts[i]).Some? ==> value.Some? && f(parts[i]).value <= value.value)
    && (value.Some? ==> exists i :: 0 <= i < |parts| && f(parts[i]) == value)
  }

  function Greater(x: Option<int>, y: Option<int>): Option<int> {
    if x.None? then y else if y.None? || y.value <= x.value then x else y
  }

  lemma MaximumOfBoth<T>(x: Option<int>, a: seq<T>, y: Option<int>, b: seq<T>, f: T -> Option<int>)
    requires IsMaximum(x, a, f) && IsMaximum(y, b, f)
    ensures IsMaximum(Greater(x, y), a + b, f)
  {
    forall k | 0 <= k < |a + b| && f((a + b)[k]).Some?
      ensures Greater(x, y).Some? && f((a + b)[k]).value <= Greater(x, y).value
    {
      if k < |a| { assert f(a[k]).Some?; } else { assert (a + b)[k] == b[k - |a|]; }
    }
    if x.Some? {
      var i :| 0 <= i < |a| && f(a[i]) == x;
      assert (a + b)[i] == a[i];
    }
    if y.Some? {
      var j :| 0 <= j < |b| && f(b[j]) == y;
      assert (a + b)[|a| + j] == b[j];
    }
  }

  function Flatten<T, V>(parts: seq<T>, f: T -> seq<V>): seq<V> {
    if parts == [] then [] else Flatten(parts[..|parts| - 1], f) + f(parts[|parts| - 1])
  }

  lemma {:induction false} FlattenBoth<T, V>(a: seq<T>, b: seq<T>, f: T -> seq<V>)
    ensures Flatten(a + b, f) == Flatten(a, f) + Flatten(b, f)
  {
    if b == [] {
      assert a + b == a;
    } else {
      assert (a + b)[..|a + b| - 1] == a + b[..|b| - 1];
      FlattenBoth(a, b[..|b| - 1], f);
    }
  }

  lemma FlattenOne<T, V>(x: T, f: T -> seq<V>)
    ensures Flatten([x], f) == f(x)
  {
    assert [x][..0] == [];
    assert Flatten([x], f) == Flatten([x][..0], f) + f(x);
  }

  /** From position `keep` on, only the elements that differ from the one right before them. */
  function Changes<V(==)>(s: seq<V>, keep: nat): seq<V>
    requires keep <= |s|
  {
    if |s| == keep then s
    else
      var n := |s| - 1;
      Changes(s[..n], keep) + if n > 0 && s[n] == s[n - 1] then [] else [s[n]]
  }
}
