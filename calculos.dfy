/** The helpers of services/calculos.service.ts: term lookups, sofipo matching, enrichment,
    the yield formula, the per-pool line builder and the three-case distribution. */
module Calculos {
  import opened Tipos
  import opened Secuencias
  import opened Texto

  // ---------------------------------------------------------------------------
  // Term codes

  /** The term codes `obtenerTasaPorModelo` recognises (note the space in "TWO YEARS"). */
  const CodigosTasa: set<string> := {"DIA", "SEMANA", "MES", "TRIMESTRE", "SEMESTRE", "YEAR", "TWO YEARS"}

  /** The keys of the day-count table of `getResultado` (note the underscore in "TWO_YEARS"). */
  const TablaDias: map<string, nat> :=
    map["DIA" := 1, "SEMANA" := 7, "MES" := 30, "TRIMESTRE" := 90, "SEMESTRE" := 180,
        "YEAR" := 365, "TWO_YEARS" := 365 * 2]

  /** The day count of a term code: the table entry, or 0 for any other code. */
  function DiasInversion(modelo: string): (d: nat)
    ensures d > 0 <==> modelo in TablaDias
    ensures modelo in TablaDias ==> d == TablaDias[modelo]
    ensures d in {0, 1, 7, 30, 90, 180, 365, 730}
  {
    if modelo in TablaDias then TablaDias[modelo] else 0
  }

  /** The instrument's rate for a term: the matching field, 0 when the field is absent or the code
      is not recognised. */
  function ObtenerTasaPorModelo(banco: Banco, modelo: string): (t: real)
    ensures modelo == "DIA" ==> t == banco.plazos.dia.GetOr(0.0)
    ensures modelo == "SEMANA" ==> t == banco.plazos.semana.GetOr(0.0)
    ensures modelo == "MES" ==> t == banco.plazos.mes.GetOr(0.0)
    ensures modelo == "TRIMESTRE" ==> t == banco.plazos.trimestre.GetOr(0.0)
    ensures modelo == "SEMESTRE" ==> t == banco.plazos.semestre.GetOr(0.0)
    ensures modelo == "YEAR" ==> t == banco.plazos.year.GetOr(0.0)
    ensures modelo == "TWO YEARS" ==> t == banco.plazos.twoYears.GetOr(0.0)
    ensures modelo !in CodigosTasa ==> t == 0.0
  {
    match modelo
    case "DIA" => banco.plazos.dia.GetOr(0.0)
    case "SEMANA" => banco.plazos.semana.GetOr(0.0)
    case "MES" => banco.plazos.mes.GetOr(0.0)
    case "TRIMESTRE" => banco.plazos.trimestre.GetOr(0.0)
    case "SEMESTRE" => banco.plazos.semestre.GetOr(0.0)
    case "YEAR" => banco.plazos.year.GetOr(0.0)
    case "TWO YEARS" => banco.plazos.twoYears.GetOr(0.0)
    case _ => 0.0
  }

  /** The rate lookup spells the two-year code "TWO YEARS": the day-table spelling "TWO_YEARS" falls
      through to the default case and selects no rate. */
  lemma DosAnosSinTasa(banco: Banco)
    ensures ObtenerTasaPorModelo(banco, "TWO_YEARS") == 0.0
    ensures ObtenerTasaPorModelo(banco, "TWO YEARS") == banco.plazos.twoYears.GetOr(0.0)
  {
    assert "TWO_YEARS" !in CodigosTasa;
  }

  /** The day table spells the two-year code "TWO_YEARS": the rate-lookup spelling "TWO YEARS" is not a
      key and gets 0 days. */
  lemma DosAnosSinDias()
    ensures DiasInversion("TWO_YEARS") == 730
    ensures DiasInversion("TWO YEARS") == 0
  {
  }

  // ---------------------------------------------------------------------------
  // Sofipo matching

  /** Two names match when their normal forms are equal. */
  predicate Coincide(banco: Banco, sofipo: Sofipo) {
    Normalizar(sofipo.name) == Normalizar(banco.nombre)
  }

  /** The index of the first sofipo record whose normalised name equals `clave` (`Array.prototype.find`). */
  function Buscar(clave: string, sofipos: seq<Sofipo>): (r: Option<nat>)
    ensures r.Some? ==> r.value < |sofipos| && Normalizar(sofipos[r.value].name) == clave
    ensures r.Some? ==> forall j | 0 <= j < r.value :: Normalizar(sofipos[j].name) != clave
    ensures r.None? ==> forall j | 0 <= j < |sofipos| :: Normalizar(sofipos[j].name) != clave
  {
    if sofipos == [] then None
    else if Normalizar(sofipos[0].name) == clave then Some(0)
    else match Buscar(clave, sofipos[1..])
      case None => None
      case Some(k) => Some(k + 1)
  }

  /** The `nicap.difference` of the first matching sofipo record, or 0 when none matches. */
  function ObtenerValorSofipo(banco: Banco, sofipos: seq<Sofipo>): (v: real)
    ensures (forall j | 0 <= j < |sofipos| :: !Coincide(banco, sofipos[j])) ==> v == 0.0
    ensures forall i | 0 <= i < |sofipos| && Coincide(banco, sofipos[i]) ::
      (forall j | 0 <= j < i :: !Coincide(banco, sofipos[j])) ==> v == sofipos[i].nicap.difference
  {
    match Buscar(Normalizar(banco.nombre), sofipos)
    case None => 0.0
    case Some(k) => sofipos[k].nicap.difference
  }

  /** Matching ignores case and white space in the instrument's name: renaming it to a name with the
      same normal form does not change its sofipo value. */
  lemma ValorSofipoInsensible(banco: Banco, nombre: string, sofipos: seq<Sofipo>)
    requires Normalizar(nombre) == Normalizar(banco.nombre)
    ensures ObtenerValorSofipo(Banco(nombre, banco.plazos), sofipos) == ObtenerValorSofipo(banco, sofipos)
  {
  }

  /** Dropping one white-space character from the instrument's name, or lower-casing one of its letters,
      keeps its sofipo value. */
  lemma ValorSofipoFormato(banco: Banco, a: string, b: string, c: char, sofipos: seq<Sofipo>)
    requires banco.nombre == a + [c] + b
    requires EsEspacio(c) || EsMayuscula(c)
    ensures var limpio := if EsEspacio(c) then a + b else a + [AMinuscula(c)] + b;
      ObtenerValorSofipo(Banco(limpio, banco.plazos), sofipos) == ObtenerValorSofipo(banco, sofipos)
  {
    if EsEspacio(c) {
      EspacioIgnorado(a, b, c);
      ValorSofipoInsensible(banco, a + b, sofipos);
    } else {
      MayusculaIgnorada(a, b, c);
      ValorSofipoInsensible(banco, a + [AMinuscula(c)] + b, sofipos);
    }
  }

  // ---------------------------------------------------------------------------
  // Enrichment

  /** `tasas.map(...)`: one candidate per instrument, in the same order. */
  function CalcularRendimientosBancos(tasas: seq<Banco>, sofipos: seq<Sofipo>, modelo: string): (r: seq<Candidato>)
    ensures |r| == |tasas|
    ensures forall i | 0 <= i < |tasas| ::
      && r[i].nombre == tasas[i].nombre
      && r[i].tasa == ObtenerTasaPorModelo(tasas[i], modelo)
      && r[i].valorSofipo == ObtenerValorSofipo(tasas[i], sofipos)
  {
    if tasas == [] then []
    else
      var banco := tasas[0];
      [Candidato(banco.nombre, ObtenerTasaPorModelo(banco, modelo), ObtenerValorSofipo(banco, sofipos))]
        + CalcularRendimientosBancos(tasas[1..], sofipos, modelo)
  }

  // ---------------------------------------------------------------------------
  // Yield

  /** Simple interest for `dias` days at the annual percentage `tasa`; 0 when the rate is missing. */
  function CalcularRendimiento(tasa: Option<real>, dias: nat, monto: real): (r: real)
    ensures tasa.None? ==> r == 0.0
    ensures tasa.Some? ==> r * 36500.0 == monto * tasa.value * (dias as real)
  {
    match tasa
    case None => 0.0
    case Some(t) => (monto * (t / 100.0) / 365.0) * (dias as real)
  }

  /** The yield is 0 for a zero day count or a zero rate. */
  lemma RendimientoCero(tasa: Option<real>, dias: nat, monto: real)
    requires dias == 0 || tasa.None? || tasa == Some(0.0) || monto == 0.0
    ensures CalcularRendimiento(tasa, dias, monto) == 0.0
  {
  }

  /** The yield is linear in the amount. */
  lemma RendimientoLineal(tasa: Option<real>, dias: nat, m1: real, m2: real, k: real)
    ensures CalcularRendimiento(tasa, dias, k * m1) == k * CalcularRendimiento(tasa, dias, m1)
    ensures CalcularRendimiento(tasa, dias, m1 + m2) == CalcularRendimiento(tasa, dias, m1) + CalcularRendimiento(tasa, dias, m2)
  {
    if tasa.Some? {
      var c := tasa.value * (dias as real) / 36500.0;
      assert CalcularRendimiento(tasa, dias, k * m1) == k * m1 * c;
      assert CalcularRendimiento(tasa, dias, m1) == m1 * c;
      assert CalcularRendimiento(tasa, dias, m2) == m2 * c;
      assert CalcularRendimiento(tasa, dias, m1 + m2) == (m1 + m2) * c;
    }
  }

  /** A 12% rate over 30 days on 90,000 earns 90000 * 0.12 / 365 * 30 = 64800/73 (about 887.67). */
  lemma EjemploRendimiento()
    ensures CalcularRendimiento(Some(12.0), 30, 90000.0) == 64800.0 / 73.0
  {
  }

  // ---------------------------------------------------------------------------
  // Lines of one pool

  /** The label of a line: "sofipo" exactly when the line's rate is 0. */
  function TipoDeTasa(tasa: real): (t: Tipo)
    ensures t == TipoSofipo <==> tasa == 0.0
  {
    if tasa == 0.0 then TipoSofipo else TipoBanco
  }

  /** The lines for `fondos`, each assigned `monto`. */
  function Lineas(fondos: seq<Candidato>, monto: real, dias: nat): (r: seq<Inversion>)
    ensures |r| == |fondos|
    ensures forall i | 0 <= i < |fondos| ::
      r[i] == Inversion(fondos[i].nombre, TipoDeTasa(fondos[i].tasa), monto,
                        CalcularRendimiento(Some(fondos[i].tasa), dias, monto))
  {
    if fondos == [] then []
    else
      var f := fondos[0];
      [Inversion(f.nombre, TipoDeTasa(f.tasa), monto, CalcularRendimiento(Some(f.tasa), dias, monto))]
        + Lineas(fondos[1..], monto, dias)
  }

  /** The amount each line of a pool receives: an equal share when dividing, the whole amount otherwise. */
  function MontoAsignado(montoTotal: real, n: nat, dividirMonto: bool): (m: real)
    requires n > 0
    ensures dividirMonto ==> m == montoTotal / (n as real) && m * (n as real) == montoTotal
    ensures !dividirMonto ==> m == montoTotal
  {
    if dividirMonto then montoTotal / (n as real) else montoTotal
  }

  /** `fondos.map(...)`: one line per fund, in order, with the fund's name, a label from its rate, the
      assigned amount and the yield on that amount. */
  function CalcularRendimientoFondo(fondos: seq<Candidato>, montoTotal: real, dias: nat, dividirMonto: bool)
    : (r: seq<Inversion>)
    ensures |r| == |fondos|
    ensures forall i | 0 <= i < |fondos| ::
      && r[i].nombre == fondos[i].nombre
      && (r[i].tipo == TipoSofipo <==> fondos[i].tasa == 0.0)
      && r[i].montoAsignado == MontoAsignado(montoTotal, |fondos|, dividirMonto)
      && r[i].rendimiento == CalcularRendimiento(Some(fondos[i].tasa), dias, r[i].montoAsignado)
  {
    if fondos == [] then [] else Lineas(fondos, MontoAsignado(montoTotal, |fondos|, dividirMonto), dias)
  }

  /** `reduce((sum, inv) => sum + inv.rendimiento, 0)`, a left fold. */
  function Suma(inv: seq<Inversion>): real {
    if inv == [] then 0.0 else Suma(inv[..|inv| - 1]) + inv[|inv| - 1].rendimiento
  }

  /** The sum of the assigned amounts. */
  function SumaMontos(inv: seq<Inversion>): real {
    if inv == [] then 0.0 else SumaMontos(inv[..|inv| - 1]) + inv[|inv| - 1].montoAsignado
  }

  lemma {:induction false} SumaConcat(a: seq<Inversion>, b: seq<Inversion>)
    ensures Suma(a + b) == Suma(a) + Suma(b)
    ensures SumaMontos(a + b) == SumaMontos(a) + SumaMontos(b)
  {
    if b == [] {
      assert a + b == a;
    } else {
      var n := |b| - 1;
      assert (a + b)[..|a + b| - 1] == a + b[..n];
      SumaConcat(a, b[..n]);
    }
  }

  /** Lines that all carry the same amount `m` sum to `|inv| * m`. */
  lemma {:induction false} SumaMontosConstante(inv: seq<Inversion>, m: real)
    requires forall i | 0 <= i < |inv| :: inv[i].montoAsignado == m
    ensures SumaMontos(inv) == (|inv| as real) * m
  {
    if inv != [] {
      SumaMontosConstante(inv[..|inv| - 1], m);
    }
  }

  /** Lines of zero yield sum to zero. */
  lemma {:induction false} SumaCero(inv: seq<Inversion>)
    requires forall i | 0 <= i < |inv| :: inv[i].rendimiento == 0.0
    ensures Suma(inv) == 0.0
  {
    if inv != [] {
      SumaCero(inv[..|inv| - 1]);
    }
  }

  /** With `dividirMonto`, the shares of a non-empty pool add back up to the pool's amount. */
  lemma RepartoExacto(fondos: seq<Candidato>, montoTotal: real, dias: nat)
    requires fondos != []
    ensures SumaMontos(CalcularRendimientoFondo(fondos, montoTotal, dias, true)) == montoTotal
  {
    var r := CalcularRendimientoFondo(fondos, montoTotal, dias, true);
    var m := MontoAsignado(montoTotal, |fondos|, true);
    SumaMontosConstante(r, m);
  }

  // ---------------------------------------------------------------------------
  // Distribution

  /** `slice(0, 3)`: the best three entries of a pool, or all of them when fewer. */
  function Mejores3(s: seq<Candidato>): (r: seq<Candidato>)
    ensures |r| == if |s| < 3 then |s| else 3
    ensures r == s[..|r|]
  {
    if |s| < 3 then s else s[..3]
  }

  /** The three cases of `distribuirMonto`. Case 1 (`monto > seguroBancos`): the bank ceiling is shared by
      the best three banks and the rest by the best three sofipos. Case 2 (`monto > seguroSofipos`): the
      whole amount is shared by the best three banks. Case 3: every bank and sofipo is shown with the whole
      amount. `rendimientoTotal` is in every case the sum of the line yields. */
  function DistribuirMonto(monto: real, seguroBancos: real, seguroSofipos: real,
                           mejoresBancos: seq<Candidato>, mejoresSofipos: seq<Candidato>, dias: nat)
    : (d: Distribucion)
    ensures d.rendimientoTotal == Suma(d.inversiones)
    ensures monto > seguroBancos ==>
      |d.inversiones| == |Mejores3(mejoresBancos)| + |Mejores3(mejoresSofipos)|
    ensures !(monto > seguroBancos) && monto > seguroSofipos ==>
      |d.inversiones| == |Mejores3(mejoresBancos)|
    ensures !(monto > seguroBancos) && !(monto > seguroSofipos) ==>
      |d.inversiones| == |mejoresBancos| + |mejoresSofipos|
  {
    if monto > seguroBancos then
      var montoBancos := seguroBancos;
      var montoSofipos := monto - seguroBancos;
      var inversionesBancos := CalcularRendimientoFondo(Mejores3(mejoresBancos), montoBancos, dias, true);
      var inversionesSofipos := CalcularRendimientoFondo(Mejores3(mejoresSofipos), montoSofipos, dias, true);
      var inversiones := inversionesBancos + inversionesSofipos;
      Distribucion(inversiones, Suma(inversiones))
    else if monto > seguroSofipos then
      var inversiones := CalcularRendimientoFondo(Mejores3(mejoresBancos), monto, dias, true);
      Distribucion(inversiones, Suma(inversiones))
    else
      var todasInversiones := mejoresBancos + mejoresSofipos;
      var inversiones := CalcularRendimientoFondo(todasInversiones, monto, dias, false);
      Distribucion(inversiones, Suma(inversiones))
  }

  /** Case 1, bank lines: the plan starts with the best (up to) three banks, each with an equal share of
      `seguroBancos` and the yield of its own rate on that share. */
  lemma Caso1Bancos(monto: real, seguroBancos: real, seguroSofipos: real,
                    bancos: seq<Candidato>, sofipos: seq<Candidato>, dias: nat)
    requires monto > seguroBancos
    ensures var inv := DistribuirMonto(monto, seguroBancos, seguroSofipos, bancos, sofipos, dias).inversiones;
      var kb := |Mejores3(bancos)|;
      && kb <= |inv|
      && (forall i | 0 <= i < kb ::
            inv[i].nombre == bancos[i].nombre && inv[i].tipo == TipoDeTasa(bancos[i].tasa)
            && inv[i].montoAsignado == seguroBancos / (kb as real)
            && inv[i].rendimiento == CalcularRendimiento(Some(bancos[i].tasa), dias, inv[i].montoAsignado))
  {
    var b3 := Mejores3(bancos);
    var ib := CalcularRendimientoFondo(b3, seguroBancos, dias, true);
    var iS := CalcularRendimientoFondo(Mejores3(sofipos), monto - seguroBancos, dias, true);
    assert DistribuirMonto(monto, seguroBancos, seguroSofipos, bancos, sofipos, dias).inversiones == ib + iS;
    forall i | 0 <= i < |b3| ensures (ib + iS)[i] == ib[i] && b3[i] == bancos[i] {
    }
  }

  /** Case 1, sofipo lines: after the bank lines come the best (up to) three sofipos, in pool order, and
      nothing else. */
  lemma Caso1Sofipos(monto: real, seguroBancos: real, seguroSofipos: real,
                     bancos: seq<Candidato>, sofipos: seq<Candidato>, dias: nat)
    requires monto > seguroBancos
    ensures var inv := DistribuirMonto(monto, seguroBancos, seguroSofipos, bancos, sofipos, dias).inversiones;
      var kb := |Mejores3(bancos)|;
      var ks := |Mejores3(sofipos)|;
      && |inv| == kb + ks
      && (forall i | kb <= i < kb + ks ::
            inv[i].nombre == sofipos[i - kb].nombre && inv[i].tipo == TipoDeTasa(sofipos[i - kb].tasa))
  {
    var s3 := Mejores3(sofipos);
    var kb := |Mejores3(bancos)|;
    var ib := CalcularRendimientoFondo(Mejores3(bancos), seguroBancos, dias, true);
    var iS := CalcularRendimientoFondo(s3, monto - seguroBancos, dias, true);
    var inv := ib + iS;
    assert DistribuirMonto(monto, seguroBancos, seguroSofipos, bancos, sofipos, dias).inversiones == inv;
    forall i | kb <= i < |inv|
      ensures inv[i].nombre == sofipos[i - kb].nombre && inv[i].tipo == TipoDeTasa(sofipos[i - kb].tasa)
    {
      assert inv[i] == iS[i - kb];
      assert s3[i - kb] == sofipos[i - kb];
    }
  }

  /** Case 1, sofipo amounts: each sofipo line gets an equal share of `monto - seguroBancos` and the
      yield of its own rate on that share. */
  lemma Caso1SofiposRendimiento(monto: real, seguroBancos: real, seguroSofipos: real,
                                bancos: seq<Candidato>, sofipos: seq<Candidato>, dias: nat)
    requires monto > seguroBancos
    ensures var inv := DistribuirMonto(monto, seguroBancos, seguroSofipos, bancos, sofipos, dias).inversiones;
      var kb := |Mejores3(bancos)|;
      var ks := |Mejores3(sofipos)|;
      && |inv| == kb + ks
      && (forall i | kb <= i < kb + ks ::
            inv[i].montoAsignado == (monto - seguroBancos) / (ks as real)
            && inv[i].rendimiento == CalcularRendimiento(Some(sofipos[i - kb].tasa), dias, inv[i].montoAsignado))
  {
    var s3 := Mejores3(sofipos);
    var kb := |Mejores3(bancos)|;
    var ib := CalcularRendimientoFondo(Mejores3(bancos), seguroBancos, dias, true);
    var iS := CalcularRendimientoFondo(s3, monto - seguroBancos, dias, true);
    var inv := ib + iS;
    assert DistribuirMonto(monto, seguroBancos, seguroSofipos, bancos, sofipos, dias).inversiones == inv;
    forall i | kb <= i < |inv|
      ensures inv[i].montoAsignado == (monto - seguroBancos) / (|s3| as real)
      ensures inv[i].rendimiento == CalcularRendimiento(Some(sofipos[i - kb].tasa), dias, inv[i].montoAsignado)
    {
      assert inv[i] == iS[i - kb];
      assert s3[i - kb] == sofipos[i - kb];
    }
  }

  /** Case 1, amounts: the bank lines add up to `seguroBancos` and the sofipo lines to
      `monto - seguroBancos` (each when its pool is non-empty), so with both pools non-empty the whole
      amount is placed. */
  lemma Caso1Montos(monto: real, seguroBancos: real, seguroSofipos: real,
                    bancos: seq<Candidato>, sofipos: seq<Candidato>, dias: nat)
    requires monto > seguroBancos
    ensures var inv := DistribuirMonto(monto, seguroBancos, seguroSofipos, bancos, sofipos, dias).inversiones;
      var kb := |Mejores3(bancos)|;
      && kb <= |inv|
      && (bancos != [] ==> SumaMontos(inv[..kb]) == seguroBancos)
      && (sofipos != [] ==> SumaMontos(inv[kb..]) == monto - seguroBancos)
      && (bancos != [] && sofipos != [] ==> SumaMontos(inv) == monto)
  {
    var b3, s3 := Mejores3(bancos), Mejores3(sofipos);
    var kb := |b3|;
    var ib := CalcularRendimientoFondo(b3, seguroBancos, dias, true);
    var iS := CalcularRendimientoFondo(s3, monto - seguroBancos, dias, true);
    var inv := ib + iS;
    assert DistribuirMonto(monto, seguroBancos, seguroSofipos, bancos, sofipos, dias).inversiones == inv;
    assert inv[..kb] == ib;
    assert inv[kb..] == iS;
    if bancos != [] { RepartoExacto(b3, seguroBancos, dias); }
    if sofipos != [] { RepartoExacto(s3, monto - seguroBancos, dias); }
    SumaConcat(ib, iS);
  }

  /** Case 2: only the best (up to) three banks, sharing the whole amount equally; with a non-empty bank
      pool the shares add up to `monto`. */
  lemma Caso2(monto: real, seguroBancos: real, seguroSofipos: real,
              bancos: seq<Candidato>, sofipos: seq<Candidato>, dias: nat)
    requires !(monto > seguroBancos) && monto > seguroSofipos
    ensures var inv := DistribuirMonto(monto, seguroBancos, seguroSofipos, bancos, sofipos, dias).inversiones;
      var kb := |Mejores3(bancos)|;
      && |inv| == kb
      && (forall i | 0 <= i < kb ::
            inv[i].nombre == bancos[i].nombre && inv[i].tipo == TipoDeTasa(bancos[i].tasa)
            && inv[i].montoAsignado == monto / (kb as real)
            && inv[i].rendimiento == CalcularRendimiento(Some(bancos[i].tasa), dias, inv[i].montoAsignado))
      && (kb > 0 ==> SumaMontos(inv) == monto)
  {
    var b3 := Mejores3(bancos);
    if b3 != [] { RepartoExacto(b3, monto, dias); }
  }

  /** Case 3: every bank, then every sofipo, in pool order, each with the whole amount. */
  lemma Caso3(monto: real, seguroBancos: real, seguroSofipos: real,
              bancos: seq<Candidato>, sofipos: seq<Candidato>, dias: nat)
    requires !(monto > seguroBancos) && !(monto > seguroSofipos)
    ensures var inv := DistribuirMonto(monto, seguroBancos, seguroSofipos, bancos, sofipos, dias).inversiones;
      && |inv| == |bancos| + |sofipos|
      && (forall i | 0 <= i < |inv| ::
            inv[i].nombre == (bancos + sofipos)[i].nombre && inv[i].tipo == TipoDeTasa((bancos + sofipos)[i].tasa)
            && inv[i].montoAsignado == monto
            && inv[i].rendimiento == CalcularRendimiento(Some((bancos + sofipos)[i].tasa), dias, monto))
  {
  }

  /** The label follows the rate, not the pool: a bank-pool entry without a rate for the term that gets
      a line (one of the best three in cases 1 and 2, any entry in case 3) is shown as "sofipo". */
  lemma BancoSinTasaComoSofipo(monto: real, seguroBancos: real, seguroSofipos: real,
                               bancos: seq<Candidato>, sofipos: seq<Candidato>, dias: nat, k: nat)
    requires k < |bancos| && bancos[k].tasa == 0.0
    requires k < 3 || (!(monto > seguroBancos) && !(monto > seguroSofipos))
    ensures var inv := DistribuirMonto(monto, seguroBancos, seguroSofipos, bancos, sofipos, dias).inversiones;
      k < |inv| && inv[k].nombre == bancos[k].nombre && inv[k].tipo == TipoSofipo
  {
    if monto > seguroBancos {
      Caso1Bancos(monto, seguroBancos, seguroSofipos, bancos, sofipos, dias);
    } else if monto > seguroSofipos {
      Caso2(monto, seguroBancos, seguroSofipos, bancos, sofipos, dias);
    } else {
      Caso3(monto, seguroBancos, seguroSofipos, bancos, sofipos, dias);
      assert (bancos + sofipos)[k] == bancos[k];
    }
  }

  /** The line names an entry of `fuente` and yields that entry's rate on the line's amount. */
  ghost predicate LineaDe(l: Inversion, fuente: seq<Candidato>, dias: nat) {
    exists c | c in fuente ::
      l.nombre == c.nombre && l.rendimiento == CalcularRendimiento(Some(c.tasa), dias, l.montoAsignado)
  }

  /** Every line comes from an entry of `fuente`, in the sense of `LineaDe`. */
  ghost predicate LineasDe(inv: seq<Inversion>, fuente: seq<Candidato>, dias: nat) {
    forall i | 0 <= i < |inv| :: LineaDe(inv[i], fuente, dias)
  }

  /** `LineasDe` carries over to any source that contains the first. */
  lemma LineasDeAmpliar(inv: seq<Inversion>, fuente: seq<Candidato>, mayor: seq<Candidato>, dias: nat)
    requires LineasDe(inv, fuente, dias)
    requires forall c | c in fuente :: c in mayor
    ensures LineasDe(inv, mayor, dias)
  {
    forall i | 0 <= i < |inv| ensures LineaDe(inv[i], mayor, dias) {
      var l := inv[i];
      var c: Candidato :| c in fuente &&
        l.nombre == c.nombre && l.rendimiento == CalcularRendimiento(Some(c.tasa), dias, l.montoAsignado);
      assert c in mayor;
    }
  }

  /** Lines drawn from a source whose rates are all 0, or over 0 days, add up to 0. */
  lemma LineasDeCero(inv: seq<Inversion>, fuente: seq<Candidato>, dias: nat)
    requires LineasDe(inv, fuente, dias)
    requires dias == 0 || forall c | c in fuente :: c.tasa == 0.0
    ensures Suma(inv) == 0.0
  {
    forall i | 0 <= i < |inv| ensures inv[i].rendimiento == 0.0 {
      var l := inv[i];
      assert LineaDe(l, fuente, dias);
      var c: Candidato :| c in fuente &&
        l.nombre == c.nombre && l.rendimiento == CalcularRendimiento(Some(c.tasa), dias, l.montoAsignado);
      RendimientoCero(Some(c.tasa), dias, l.montoAsignado);
    }
    SumaCero(inv);
  }

  /** Some instrument of the catalogue is called `nombre`. */
  ghost predicate EnCatalogo(nombre: string, tasas: seq<Banco>) {
    exists j | 0 <= j < |tasas| :: tasas[j].nombre == nombre
  }

  /** Lines that come from a list carrying the catalogue's names, index by index, name instruments of
      the catalogue. */
  lemma NombresDeLaFuente(inv: seq<Inversion>, e: seq<Candidato>, tasas: seq<Banco>, dias: nat)
    requires LineasDe(inv, e, dias)
    requires |e| == |tasas| && forall j | 0 <= j < |e| :: e[j].nombre == tasas[j].nombre
    ensures forall i | 0 <= i < |inv| :: EnCatalogo(inv[i].nombre, tasas)
  {
    forall i | 0 <= i < |inv| ensures EnCatalogo(inv[i].nombre, tasas) {
      assert LineaDe(inv[i], e, dias);
      var c: Candidato :| c in e && inv[i].nombre == c.nombre;
      var j :| 0 <= j < |e| && e[j] == c;
      assert tasas[j].nombre == inv[i].nombre;
    }
  }

  /** In every case each line comes from an entry of one of the two pools: same name, and the yield of
      that entry's rate on the line's amount. */
  lemma LineasDeLosFondos(monto: real, seguroBancos: real, seguroSofipos: real,
                          bancos: seq<Candidato>, sofipos: seq<Candidato>, dias: nat)
    ensures LineasDe(DistribuirMonto(monto, seguroBancos, seguroSofipos, bancos, sofipos, dias).inversiones,
                     bancos + sofipos, dias)
  {
    var inv := DistribuirMonto(monto, seguroBancos, seguroSofipos, bancos, sofipos, dias).inversiones;
    if monto > seguroBancos {
      Caso1Bancos(monto, seguroBancos, seguroSofipos, bancos, sofipos, dias);
      Caso1Sofipos(monto, seguroBancos, seguroSofipos, bancos, sofipos, dias);
      Caso1SofiposRendimiento(monto, seguroBancos, seguroSofipos, bancos, sofipos, dias);
      var kb := |Mejores3(bancos)|;
      forall i | 0 <= i < |inv| ensures LineaDe(inv[i], bancos + sofipos, dias) {
        var c := if i < kb then bancos[i] else sofipos[i - kb];
        assert c in bancos + sofipos;
      }
    } else if monto > seguroSofipos {
      Caso2(monto, seguroBancos, seguroSofipos, bancos, sofipos, dias);
      forall i | 0 <= i < |inv| ensures LineaDe(inv[i], bancos + sofipos, dias) {
        assert bancos[i] in bancos + sofipos;
      }
    } else {
      Caso3(monto, seguroBancos, seguroSofipos, bancos, sofipos, dias);
      forall i | 0 <= i < |inv| ensures LineaDe(inv[i], bancos + sofipos, dias) {
        assert (bancos + sofipos)[i] in bancos + sofipos;
      }
    }
  }
}
