/** `getResultado` of services/calculos.service.ts: enrich, sort in place, split into the bank and
    sofipo pools, distribute, and round the total. The three fetches are replaced by parameters. */
module Servicio {
  import opened Tipos
  import opened Secuencias
  import opened Ordenamiento
  import opened Calculos

  /** The request body (`inversionParams`); `fijaOFlexible` is read but never used by the engine. */
  datatype Parametros = Parametros(montoAInvertir: real, fijaOFlexible: string, modeloDeInversion: string)

  /** Bank pool membership: a sofipo value of exactly 0. */
  predicate EsBanco(c: Candidato) { c.valorSofipo == 0.0 }

  /** Sofipo pool membership: a positive sofipo value. */
  predicate EsSofipo(c: Candidato) { c.valorSofipo > 0.0 }

  /** A negative sofipo value, which puts the candidate in neither pool. */
  predicate EsNegativo(c: Candidato) { c.valorSofipo < 0.0 }

  /** `Math.round`: the nearest integer, halves rounded up. */
  function Redondear(x: real): (n: int)
    ensures n as real - 0.5 <= x < n as real + 0.5
  {
    (x + 0.5).Floor
  }

  /** Halves go up, also for negative numbers, as in `Math.round`. */
  lemma EjemploRedondeo()
    ensures Redondear(887.5) == 888 && Redondear(887.49) == 887 && Redondear(-2.5) == -2
  {
  }

  /** The plan `getResultado` returns for the given request and the fetched data. */
  function ResultadoEsperado(params: Parametros, tasas: seq<Banco>, valoresSofipos: seq<Sofipo>,
                             seguroSofipos: real, seguroBancos: real): (r: Resultado)
    ensures r.montoInicial == params.montoAInvertir
    ensures r.rendimientoTotal == Redondear(Suma(r.inversiones))
  {
    var ordenados := Ordenar(CalcularRendimientosBancos(tasas, valoresSofipos, params.modeloDeInversion));
    var d := DistribuirMonto(params.montoAInvertir, seguroBancos, seguroSofipos,
                             Filtrar(ordenados, EsBanco), Filtrar(ordenados, EsSofipo),
                             DiasInversion(params.modeloDeInversion));
    Resultado(params.montoAInvertir, Redondear(d.rendimientoTotal), d.inversiones)
  }

  /** `getResultado`, with the rate catalogue, the sofipo records and the two insurance ceilings as
      parameters; the enriched list is sorted in place in an array. */
  method GetResultado(params: Parametros, tasas: seq<Banco>, valoresSofipos: seq<Sofipo>,
                      seguroSofipos: real, seguroBancos: real) returns (r: Resultado)
    ensures r == ResultadoEsperado(params, tasas, valoresSofipos, seguroSofipos, seguroBancos)
  {
    var enriquecidos := CalcularRendimientosBancos(tasas, valoresSofipos, params.modeloDeInversion);
    var bancosConRendimiento := new Candidato[|enriquecidos|](i requires 0 <= i < |enriquecidos| => enriquecidos[i]);
    assert bancosConRendimiento[..] == enriquecidos;
    OrdenarPorTasa(bancosConRendimiento);
    var mejoresBancos := Filtrar(bancosConRendimiento[..], EsBanco);
    var mejoresSofipos := Filtrar(bancosConRendimiento[..], EsSofipo);
    var diasInversion := DiasInversion(params.modeloDeInversion);
    var d := DistribuirMonto(params.montoAInvertir, seguroBancos, seguroSofipos,
                             mejoresBancos, mejoresSofipos, diasInversion);
    r := Resultado(params.montoAInvertir, Redondear(d.rendimientoTotal), d.inversiones);
  }

  /** Every candidate is in exactly one of: the bank pool, the sofipo pool, or neither (negative value). */
  lemma {:induction false} ParticionPorSigno(s: seq<Candidato>)
    ensures |Filtrar(s, EsBanco)| + |Filtrar(s, EsSofipo)| + |Filtrar(s, EsNegativo)| == |s|
  {
    if s != [] {
      ParticionPorSigno(s[1..]);
    }
  }

  /** The two pools of the sorted list: each descending by rate, each exactly the stable sort of the
      enriched candidates of its class, and membership decided by the sign of the sofipo value alone. */
  lemma Pools(s: seq<Candidato>)
    ensures Descendente(Ordenar(s)) && multiset(Ordenar(s)) == multiset(s)
    ensures Filtrar(Ordenar(s), EsBanco) == Ordenar(Filtrar(s, EsBanco))
    ensures Filtrar(Ordenar(s), EsSofipo) == Ordenar(Filtrar(s, EsSofipo))
    ensures Descendente(Filtrar(Ordenar(s), EsBanco)) && Descendente(Filtrar(Ordenar(s), EsSofipo))
    ensures forall c :: c in Filtrar(Ordenar(s), EsBanco) <==> c in s && c.valorSofipo == 0.0
    ensures forall c :: c in Filtrar(Ordenar(s), EsSofipo) <==> c in s && c.valorSofipo > 0.0
    ensures forall c :: multiset(Filtrar(Ordenar(s), EsBanco))[c] == if c.valorSofipo == 0.0 then multiset(s)[c] else 0
    ensures forall c :: multiset(Filtrar(Ordenar(s), EsSofipo))[c] == if c.valorSofipo > 0.0 then multiset(s)[c] else 0
  {
    OrdenarDescendente(s);
    OrdenarPermutacion(s);
    OrdenarFiltrar(s, EsBanco);
    OrdenarFiltrar(s, EsSofipo);
    FiltrarDescendente(Ordenar(s), EsBanco);
    FiltrarDescendente(Ordenar(s), EsSofipo);
    forall c ensures c in Filtrar(Ordenar(s), EsBanco) <==> c in s && c.valorSofipo == 0.0 {
      FiltrarPertenencia(Ordenar(s), EsBanco, c);
      assert c in Ordenar(s) <==> c in multiset(s);
    }
    forall c ensures c in Filtrar(Ordenar(s), EsSofipo) <==> c in s && c.valorSofipo > 0.0 {
      FiltrarPertenencia(Ordenar(s), EsSofipo, c);
      assert c in Ordenar(s) <==> c in multiset(s);
    }
    forall c ensures multiset(Filtrar(Ordenar(s), EsBanco))[c] == if c.valorSofipo == 0.0 then multiset(s)[c] else 0 {
      FiltrarMultiplicidad(Ordenar(s), EsBanco, c);
    }
    forall c ensures multiset(Filtrar(Ordenar(s), EsSofipo))[c] == if c.valorSofipo > 0.0 then multiset(s)[c] else 0 {
      FiltrarMultiplicidad(Ordenar(s), EsSofipo, c);
    }
  }

  /** Every line distributed over the pools of a sorted candidate list names one of the candidates and
      yields that candidate's rate on the line's amount. */
  lemma LineasDeLosPools(e: seq<Candidato>, monto: real, seguroBancos: real, seguroSofipos: real, dias: nat)
    ensures var o := Ordenar(e);
      LineasDe(DistribuirMonto(monto, seguroBancos, seguroSofipos, Filtrar(o, EsBanco), Filtrar(o, EsSofipo), dias).inversiones,
               e, dias)
  {
    var o := Ordenar(e);
    var bancos, sofipos := Filtrar(o, EsBanco), Filtrar(o, EsSofipo);
    var inv := DistribuirMonto(monto, seguroBancos, seguroSofipos, bancos, sofipos, dias).inversiones;
    LineasDeLosFondos(monto, seguroBancos, seguroSofipos, bancos, sofipos, dias);
    OrdenarPermutacion(e);
    forall c | c in bancos + sofipos ensures c in e {
      FiltrarPertenencia(o, EsBanco, c);
      FiltrarPertenencia(o, EsSofipo, c);
      assert c in multiset(o);
    }
    LineasDeAmpliar(inv, bancos + sofipos, e, dias);
  }

  /** Every line of the plan names an enriched candidate and yields that candidate's rate on the line's
      amount for the term's day count. */
  lemma LineasDelCatalogo(params: Parametros, tasas: seq<Banco>, valoresSofipos: seq<Sofipo>,
                          seguroSofipos: real, seguroBancos: real)
    ensures LineasDe(ResultadoEsperado(params, tasas, valoresSofipos, seguroSofipos, seguroBancos).inversiones,
                     CalcularRendimientosBancos(tasas, valoresSofipos, params.modeloDeInversion),
                     DiasInversion(params.modeloDeInversion))
  {
    LineasDeLosPools(CalcularRendimientosBancos(tasas, valoresSofipos, params.modeloDeInversion),
                     params.montoAInvertir, seguroBancos, seguroSofipos, DiasInversion(params.modeloDeInversion));
  }

  /** Every line names an instrument of the rate catalogue. */
  lemma NombresDelCatalogo(params: Parametros, tasas: seq<Banco>, valoresSofipos: seq<Sofipo>,
                           seguroSofipos: real, seguroBancos: real)
    ensures var inv := ResultadoEsperado(params, tasas, valoresSofipos, seguroSofipos, seguroBancos).inversiones;
      forall i | 0 <= i < |inv| :: EnCatalogo(inv[i].nombre, tasas)
  {
    LineasDelCatalogo(params, tasas, valoresSofipos, seguroSofipos, seguroBancos);
    NombresDeLaFuente(ResultadoEsperado(params, tasas, valoresSofipos, seguroSofipos, seguroBancos).inversiones,
                      CalcularRendimientosBancos(tasas, valoresSofipos, params.modeloDeInversion), tasas,
                      DiasInversion(params.modeloDeInversion));
  }

  /** When every candidate has rate 0, or the day count is 0, every line yields 0 and so does the total. */
  lemma SinRendimiento(e: seq<Candidato>, monto: real, seguroBancos: real, seguroSofipos: real, dias: nat)
    requires dias == 0 || forall i | 0 <= i < |e| :: e[i].tasa == 0.0
    ensures var o := Ordenar(e);
      Suma(DistribuirMonto(monto, seguroBancos, seguroSofipos, Filtrar(o, EsBanco), Filtrar(o, EsSofipo), dias).inversiones) == 0.0
  {
    var o := Ordenar(e);
    var inv := DistribuirMonto(monto, seguroBancos, seguroSofipos, Filtrar(o, EsBanco), Filtrar(o, EsSofipo), dias).inversiones;
    LineasDeLosPools(e, monto, seguroBancos, seguroSofipos, dias);
    if dias != 0 {
      forall c | c in e ensures c.tasa == 0.0 {
        var j :| 0 <= j < |e| && e[j] == c;
      }
    }
    LineasDeCero(inv, e, dias);
  }

  /** Neither spelling of the two-year term earns anything: "TWO_YEARS" finds no rate and "TWO YEARS"
      finds no day count, so the rounded total is 0 whatever the data. */
  lemma PlazoDosAnosSinRendimiento(params: Parametros, tasas: seq<Banco>, valoresSofipos: seq<Sofipo>,
                                   seguroSofipos: real, seguroBancos: real)
    requires params.modeloDeInversion == "TWO_YEARS" || params.modeloDeInversion == "TWO YEARS"
    ensures ResultadoEsperado(params, tasas, valoresSofipos, seguroSofipos, seguroBancos).rendimientoTotal == 0
  {
    var e := CalcularRendimientosBancos(tasas, valoresSofipos, params.modeloDeInversion);
    assert "TWO_YEARS" !in CodigosTasa;
    SinRendimiento(e, params.montoAInvertir, seguroBancos, seguroSofipos, DiasInversion(params.modeloDeInversion));
  }
}
