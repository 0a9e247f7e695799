/** `Array.prototype.filter` on sequences, with the facts the allocation engine relies on. */
module Secuencias {

  /** The elements of `s` that satisfy `p`, in their order in `s`. */
  function Filtrar<T>(s: seq<T>, p: T -> bool): (r: seq<T>)
    ensures |r| <= |s|
  {
    if s == [] then [] else (if p(s[0]) then [s[0]] else []) + Filtrar(s[1..], p)
  }

  /** An element is kept exactly when it is in `s` and passes `p`. */
  lemma {:induction false} FiltrarPertenencia<T>(s: seq<T>, p: T -> bool, x: T)
    ensures x in Filtrar(s, p) <==> x in s && p(x)
  {
    if s != [] {
      FiltrarPertenencia(s[1..], p, x);
      assert s == [s[0]] + s[1..];
    }
  }

  /** Filtering distributes over concatenation. */
  lemma {:induction false} FiltrarConcat<T>(a: seq<T>, b: seq<T>, p: T -> bool)
    ensures Filtrar(a + b, p) == Filtrar(a, p) + Filtrar(b, p)
  {
    if a == [] {
      assert a + b == b;
    } else {
      var h := if p(a[0]) then [a[0]] else [];
      assert (a + b)[0] == a[0];
      assert (a + b)[1..] == a[1..] + b;
      assert Filtrar(a + b, p) == h + Filtrar(a[1..] + b, p);
      FiltrarConcat(a[1..], b, p);
      assert Filtrar(a, p) == h + Filtrar(a[1..], p);
    }
  }

  /** Filtering appends the last element exactly when it passes. */
  lemma FiltrarUltimo<T>(s: seq<T>, x: T, p: T -> bool)
    ensures Filtrar(s + [x], p) == Filtrar(s, p) + (if p(x) then [x] else [])
  {
    FiltrarConcat(s, [x], p);
    assert [x][1..] == [];
  }

  /** Filtering keeps every copy of a passing element and no copy of a failing one. */
  lemma {:induction false} FiltrarMultiplicidad<T>(s: seq<T>, p: T -> bool, x: T)
    ensures multiset(Filtrar(s, p))[x] == if p(x) then multiset(s)[x] else 0
  {
    if s != [] {
      FiltrarMultiplicidad(s[1..], p, x);
      assert s == [s[0]] + s[1..];
    }
  }
}
