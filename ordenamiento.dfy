/** The in-place sort of calculos.service.ts:51, `bancosConRendimiento.sort((a, b) => b.tasa - a.tasa)`:
    a stable sort by rate, highest first. `Ordenar` is the specification (an insertion sort that
    places each element after every earlier element of equal or higher rate); `OrdenarPorTasa`
    sorts an array in place and is proved to produce exactly `Ordenar` of its old contents. */
module Ordenamiento {
  import opened Tipos
  import opened Secuencias

  /** Rates never increase from left to right. */
  ghost predicate Descendente(s: seq<Candidato>) {
    forall i, j | 0 <= i < j < |s| :: s[i].tasa >= s[j].tasa
  }

  /** Inserts `x` into `t` just before the first element whose rate is lower than that of `x`. */
  function Insertar(t: seq<Candidato>, x: Candidato): (r: seq<Candidato>)
    ensures |r| == |t| + 1
  {
    if t == [] then [x]
    else if t[0].tasa < x.tasa then [x] + t
    else
      assert t == [t[0]] + t[1..];
      [t[0]] + Insertar(t[1..], x)
  }

  /** The stable descending sort of `s`. */
  function Ordenar(s: seq<Candidato>): (r: seq<Candidato>)
    ensures |r| == |s|
  {
    if s == [] then [] else
      var n := |s| - 1;
      assert s == s[..n] + [s[n]];
      Insertar(Ordenar(s[..n]), s[n])
  }

  lemma DescendenteCola(t: seq<Candidato>)
    requires t != [] && Descendente(t)
    ensures Descendente(t[1..])
  {
    var u := t[1..];
    forall a, b | 0 <= a < b < |u| ensures u[a].tasa >= u[b].tasa {
      assert u[a] == t[a + 1] && u[b] == t[b + 1];
    }
  }

  /** Inserting into a descending sequence keeps it descending. */
  lemma {:induction false} InsertarDescendente(t: seq<Candidato>, x: Candidato)
    requires Descendente(t)
    ensures Descendente(Insertar(t, x))
  {
    if t != [] && t[0].tasa >= x.tasa {
      var u := t[1..];
      DescendenteCola(t);
      InsertarDescendente(u, x);
      var v := Insertar(u, x);
      assert v[0] == x || v[0] == u[0];
      var r := Insertar(t, x);
      assert r == [t[0]] + v;
      forall a, b | 0 <= a < b < |r| ensures r[a].tasa >= r[b].tasa {
        if a == 0 {
          assert r[b] == v[b - 1];
          assert v[0].tasa >= v[b - 1].tasa;
        } else {
          assert r[a] == v[a - 1] && r[b] == v[b - 1];
        }
      }
    }
  }

  /** Inserting adds exactly the one element. */
  lemma {:induction false} InsertarMultiset(t: seq<Candidato>, x: Candidato)
    ensures multiset(Insertar(t, x)) == multiset(t) + multiset{x}
  {
    if t != [] && t[0].tasa >= x.tasa {
      InsertarMultiset(t[1..], x);
      assert t == [t[0]] + t[1..];
    }
  }

  /** The sorted sequence is a permutation of the input. */
  lemma {:induction false} OrdenarPermutacion(s: seq<Candidato>)
    ensures multiset(Ordenar(s)) == multiset(s)
  {
    if s != [] {
      var n := |s| - 1;
      OrdenarPermutacion(s[..n]);
      InsertarMultiset(Ordenar(s[..n]), s[n]);
      assert s == s[..n] + [s[n]];
    }
  }

  /** The sorted sequence has non-increasing rates. */
  lemma {:induction false} OrdenarDescendente(s: seq<Candidato>)
    ensures Descendente(Ordenar(s))
  {
    if s != [] {
      var n := |s| - 1;
      OrdenarDescendente(s[..n]);
      InsertarDescendente(Ordenar(s[..n]), s[n]);
    }
  }

  /** When a passing prefix of `t` rates at least `x` and the rest rates below, `Insertar` places `x` at `j`. */
  lemma {:induction false} InsertarEn(t: seq<Candidato>, x: Candidato, j: nat)
    requires Descendente(t)
    requires j <= |t|
    requires j == 0 || t[j - 1].tasa >= x.tasa
    requires forall k | j <= k < |t| :: t[k].tasa < x.tasa
    ensures Insertar(t, x) == t[..j] + [x] + t[j..]
  {
    if j == 0 {
      assert t[..0] + [x] + t[0..] == [x] + t;
    } else {
      assert t[0].tasa >= x.tasa by {
        if j > 1 { assert t[0].tasa >= t[j - 1].tasa; }
      }
      var u := t[1..];
      DescendenteCola(t);
      assert j - 1 == 0 || u[j - 2].tasa >= x.tasa;
      assert forall k | j - 1 <= k < |u| :: u[k].tasa < x.tasa by {
        forall k | j - 1 <= k < |u| ensures u[k].tasa < x.tasa {
          assert u[k] == t[k + 1];
        }
      }
      InsertarEn(u, x, j - 1);
      calc {
        Insertar(t, x);
        [t[0]] + Insertar(u, x);
        [t[0]] + (u[..j - 1] + [x] + u[j - 1..]);
        { assert u[..j - 1] == t[1..j]; assert u[j - 1..] == t[j..]; }
        [t[0]] + (t[1..j] + [x] + t[j..]);
        { assert t[..j] == [t[0]] + t[1..j]; }
        t[..j] + [x] + t[j..];
      }
    }
  }

  /** Filtering a descending sequence gives a descending sequence. */
  lemma {:induction false} FiltrarDescendente(s: seq<Candidato>, p: Candidato -> bool)
    requires Descendente(s)
    ensures Descendente(Filtrar(s, p))
  {
    if s != [] {
      DescendenteCola(s);
      FiltrarDescendente(s[1..], p);
      var f := Filtrar(s[1..], p);
      if p(s[0]) {
        var r := [s[0]] + f;
        forall a, b | 0 <= a < b < |r| ensures r[a].tasa >= r[b].tasa {
          if a == 0 {
            assert r[b] == f[b - 1];
            FiltrarPertenencia(s[1..], p, f[b - 1]);
          } else {
            assert r[a] == f[a - 1] && r[b] == f[b - 1];
          }
        }
      }
    }
  }

  /** The first element of a descending sequence rates at least as high as any of its elements. */
  lemma CabezaMaxima(t: seq<Candidato>, c: Candidato)
    requires Descendente(t) && c in t
    ensures t[0].tasa >= c.tasa
  {
    var k :| 0 <= k < |t| && t[k] == c;
    if k > 0 { assert t[0].tasa >= t[k].tasa; }
  }

  /** Filtering commutes with one insertion step. */
  lemma {:induction false} FiltrarInsertar(t: seq<Candidato>, x: Candidato, p: Candidato -> bool)
    requires Descendente(t)
    ensures Filtrar(Insertar(t, x), p) == if p(x) then Insertar(Filtrar(t, p), x) else Filtrar(t, p)
  {
    if t == [] {
      assert [x][1..] == [];
    } else if t[0].tasa < x.tasa {
      assert ([x] + t)[1..] == t;
      var f := Filtrar(t, p);
      if p(x) && f != [] {
        FiltrarPertenencia(t, p, f[0]);
        CabezaMaxima(t, f[0]);
      }
    } else {
      var u := t[1..];
      DescendenteCola(t);
      FiltrarInsertar(u, x, p);
      var v := Insertar(u, x);
      assert Insertar(t, x) == [t[0]] + v;
      assert ([t[0]] + v)[1..] == v;
      var fu := Filtrar(u, p);
      var h := if p(t[0]) then [t[0]] else [];
      assert Filtrar(t, p) == h + fu;
      assert Filtrar([t[0]] + v, p) == h + Filtrar(v, p);
      if p(x) && p(t[0]) {
        assert ([t[0]] + fu)[1..] == fu;
        assert Insertar([t[0]] + fu, x) == [t[0]] + Insertar(fu, x);
      } else if p(x) {
        assert Filtrar(t, p) == fu;
      }
    }
  }

  /** Sorting then filtering equals filtering then sorting: a filtered pool of the sorted list is the
      stable sort of the elements that pass the filter. */
  lemma {:induction false} OrdenarFiltrar(s: seq<Candidato>, p: Candidato -> bool)
    ensures Filtrar(Ordenar(s), p) == Ordenar(Filtrar(s, p))
  {
    if s != [] {
      var n := |s| - 1;
      OrdenarFiltrar(s[..n], p);
      OrdenarDescendente(s[..n]);
      FiltrarInsertar(Ordenar(s[..n]), s[n], p);
      assert s == s[..n] + [s[n]];
      FiltrarUltimo(s[..n], s[n], p);
      var f := Filtrar(s[..n], p);
      if p(s[n]) {
        assert (f + [s[n]])[..|f|] == f;
        assert Ordenar(f + [s[n]]) == Insertar(Ordenar(f), s[n]);
        assert Filtrar(s, p) == f + [s[n]];
      } else {
        assert Filtrar(s, p) == f;
      }
    }
  }

  /** Inserting an element whose rate equals every rate of `t` appends it. */
  lemma {:induction false} InsertarIguales(t: seq<Candidato>, x: Candidato)
    requires forall k | 0 <= k < |t| :: t[k].tasa == x.tasa
    ensures Insertar(t, x) == t + [x]
  {
    if t != [] {
      InsertarIguales(t[1..], x);
      assert t == [t[0]] + t[1..];
    }
  }

  /** A sequence of equal rates is already sorted: the sort moves nothing. */
  lemma {:induction false} OrdenarIguales(s: seq<Candidato>, r: real)
    requires forall k | 0 <= k < |s| :: s[k].tasa == r
    ensures Ordenar(s) == s
  {
    if s != [] {
      var n := |s| - 1;
      OrdenarIguales(s[..n], r);
      InsertarIguales(s[..n], s[n]);
      assert s == s[..n] + [s[n]];
    }
  }

  /** The test "has rate `r`". */
  function TieneTasa(r: real): Candidato -> bool {
    (c: Candidato) => c.tasa == r
  }

  /** The elements of rate `r`, in order. */
  function ConTasa(s: seq<Candidato>, r: real): seq<Candidato> {
    Filtrar(s, TieneTasa(r))
  }

  /** Stability: for every rate, the elements with that rate keep their relative input order. */
  lemma OrdenarEstable(s: seq<Candidato>, r: real)
    ensures ConTasa(Ordenar(s), r) == ConTasa(s, r)
  {
    OrdenarFiltrar(s, TieneTasa(r));
    var f := ConTasa(s, r);
    forall k | 0 <= k < |f| ensures f[k].tasa == r {
      FiltrarPertenencia(s, TieneTasa(r), f[k]);
    }
    OrdenarIguales(f, r);
  }

  /** Sorts `a` in place, highest rate first, keeping the input order of equal rates. */
  method OrdenarPorTasa(a: array<Candidato>)
    modifies a
    ensures a[..] == Ordenar(old(a[..]))
  {
    ghost var s := a[..];
    var i := 0;
    while i < a.Length
      invariant 0 <= i <= a.Length
      invariant a[..i] == Ordenar(s[..i])
      invariant a[i..] == s[i..]
    {
      OrdenarDescendente(s[..i]);
      InsertarSiguiente(a, i);
      assert s[..i + 1][..i] == s[..i];
      assert a[i + 1..] == s[i + 1..];
      i := i + 1;
    }
    assert a[..] == a[..a.Length];
    assert s == s[..a.Length];
  }

  /** Moves `a[i]` left into the sorted prefix `a[..i]` by adjacent swaps, passing only
      elements of strictly lower rate; equal rates never change places. */
  method InsertarSiguiente(a: array<Candidato>, i: nat)
    requires i < a.Length
    requires Descendente(a[..i])
    modifies a
    ensures a[..i + 1] == Insertar(old(a[..i]), old(a[i]))
    ensures a[i + 1..] == old(a[i + 1..])
  {
    ghost var p := a[..i];
    ghost var x := a[i];
    var j := i;
    while j > 0 && a[j - 1].tasa < a[j].tasa
      invariant 0 <= j <= i
      invariant forall k | 0 <= k < j :: a[k] == p[k]
      invariant a[j] == x
      invariant forall k | j < k <= i :: a[k] == p[k - 1]
      invariant forall k | i < k < a.Length :: a[k] == old(a[k])
      invariant forall k | j <= k < i :: p[k].tasa < x.tasa
    {
      a[j - 1], a[j] := a[j], a[j - 1];
      j := j - 1;
    }
    Desplazado(a[..i + 1], p, x, j);
    InsertarEn(p, x, j);
  }

  /** A sequence that agrees with `p` below `j`, holds `x` at `j` and `p` shifted by one above it is
      `p` with `x` inserted at `j`. */
  lemma Desplazado(q: seq<Candidato>, p: seq<Candidato>, x: Candidato, j: nat)
    requires |q| == |p| + 1 && j <= |p|
    requires forall k | 0 <= k < j :: q[k] == p[k]
    requires q[j] == x
    requires forall k | j < k < |q| :: q[k] == p[k - 1]
    ensures q == p[..j] + [x] + p[j..]
  {
    forall k | 0 <= k < |q| ensures q[k] == (p[..j] + [x] + p[j..])[k] {
      if k > j { assert (p[..j] + [x] + p[j..])[k] == p[k - 1]; }
    }
  }
}
