/** The name normalisation of calculos.service.ts:150 and :152:
    `toLowerCase()` followed by removing every match of the regular expression `\s`. */
module Texto {

  /** A character the ECMAScript `\s` class matches (white space and line terminators). */
  predicate EsEspacio(c: char) {
    var n := c as int;
    n == 0x09 || n == 0x0A || n == 0x0B || n == 0x0C || n == 0x0D || n == 0x20
    || n == 0xA0 || n == 0x1680 || (0x2000 <= n <= 0x200A) || n == 0x2028 || n == 0x2029
    || n == 0x202F || n == 0x205F || n == 0x3000 || n == 0xFEFF
  }

  /** An upper-case letter of the Basic Latin and Latin-1 ranges (U+00D7, the multiplication sign, is not a letter). */
  predicate EsMayuscula(c: char) {
    ('A' <= c <= 'Z') || ('\U{00C0}' <= c <= '\U{00DE}' && c != '\U{00D7}')
  }

  /** The lower-case form of a character; upper-case letters in both ranges are 0x20 below their lower-case form. */
  function AMinuscula(c: char): (d: char)
    ensures !EsMayuscula(d)
    ensures EsEspacio(d) <==> EsEspacio(c)
    ensures !EsMayuscula(c) ==> d == c
    ensures EsMayuscula(c) ==> d as int == c as int + 0x20
  {
    if EsMayuscula(c) then (c as int + 0x20) as char else c
  }

  /** `nombre.toLowerCase().replace(/\s/g, '')`. */
  function Normalizar(s: string): (r: string)
    ensures |r| <= |s|
    ensures forall i | 0 <= i < |r| :: !EsEspacio(r[i]) && !EsMayuscula(r[i])
  {
    if s == [] then []
    else (if EsEspacio(s[0]) then [] else [AMinuscula(s[0])]) + Normalizar(s[1..])
  }

  /** Normalising an already normalised name changes nothing. */
  lemma {:induction false} NormalizarIdempotente(s: string)
    ensures Normalizar(Normalizar(s)) == Normalizar(s)
  {
    var r := Normalizar(s);
    NormalizadoFijo(r);
  }

  /** A name without white space or upper-case letters is its own normal form. */
  lemma {:induction false} NormalizadoFijo(r: string)
    requires forall i | 0 <= i < |r| :: !EsEspacio(r[i]) && !EsMayuscula(r[i])
    ensures Normalizar(r) == r
  {
    if r != [] {
      NormalizadoFijo(r[1..]);
    }
  }

  /** Normalisation of a concatenation is the concatenation of the normal forms. */
  lemma {:induction false} NormalizarConcat(a: string, b: string)
    ensures Normalizar(a + b) == Normalizar(a) + Normalizar(b)
  {
    if a != [] {
      assert (a + b)[1..] == a[1..] + b;
      NormalizarConcat(a[1..], b);
    } else {
      assert a + b == b;
    }
  }

  /** Removing one white-space character anywhere does not change the normal form. */
  lemma EspacioIgnorado(a: string, b: string, c: char)
    requires EsEspacio(c)
    ensures Normalizar(a + [c] + b) == Normalizar(a + b)
  {
    NormalizarConcat(a + [c], b);
    NormalizarConcat(a, [c]);
    NormalizarConcat(a, b);
    assert Normalizar([c]) == [] by { assert [c][1..] == []; }
  }

  /** Replacing an upper-case letter anywhere by its lower-case partner does not change the normal form. */
  lemma MayusculaIgnorada(a: string, b: string, c: char)
    requires EsMayuscula(c)
    ensures Normalizar(a + [c] + b) == Normalizar(a + [AMinuscula(c)] + b)
  {
    var d := AMinuscula(c);
    NormalizarConcat(a + [c], b);
    NormalizarConcat(a, [c]);
    NormalizarConcat(a + [d], b);
    NormalizarConcat(a, [d]);
    assert [c][1..] == [] && [d][1..] == [];
  }

  /** Names that differ only in case and spacing have the same normal form. */
  lemma EjemploNormalizacion()
    ensures Normalizar(" Ka\tB ") == Normalizar("kab") == "kab"
  {
    NormalizadoFijo("kab");
    assert " Ka\tB " == " Ka" + "\tB ";
    NormalizarConcat(" Ka", "\tB ");
  }
}
