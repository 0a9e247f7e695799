/** Records exchanged by the allocation engine of calculos.service.ts.
    Money amounts and rate percentages are exact reals; a day count is a natural number. */
module Tipos {

  /** A value that may be absent (a TypeScript optional field or `number | undefined`). */
  datatype Option<+T> = None | Some(value: T) {
    /** The value, or `default` when absent: the `x || 0` idiom of the source for numbers. */
    function GetOr(default: T): T {
      match this
      case Some(v) => v
      case None => default
    }
  }

  /** Annual rate percentages of one instrument, one optional field per term. */
  datatype Plazos = Plazos(
    dia: Option<real>,
    semana: Option<real>,
    mes: Option<real>,
    trimestre: Option<real>,
    semestre: Option<real>,
    year: Option<real>,
    twoYears: Option<real>)

  /** An instrument of the rate catalogue (interface `Banco`). */
  datatype Banco = Banco(nombre: string, plazos: Plazos)

  /** The capital-adequacy block of a sofipo record; only `difference` takes part in the allocation. */
  datatype Nicap = Nicap(year: int, julio: real, agosto: real, difference: real, category: string)

  /** A sofipo record (interface `Sofipo`). */
  datatype Sofipo = Sofipo(name: string, nicap: Nicap)

  /** An instrument enriched with its rate for the requested term and its sofipo value. */
  datatype Candidato = Candidato(nombre: string, tasa: real, valorSofipo: real)

  /** The output label of a line: "banco" or "sofipo". */
  datatype Tipo = TipoBanco | TipoSofipo

  /** One allocation line of the result. */
  datatype Inversion = Inversion(nombre: string, tipo: Tipo, montoAsignado: real, rendimiento: real)

  /** What `distribuirMonto` returns: the lines and the unrounded total yield. */
  datatype Distribucion = Distribucion(inversiones: seq<Inversion>, rendimientoTotal: real)

  /** The final plan (interface `Resultado`). */
  datatype Resultado = Resultado(montoInicial: real, rendimientoTotal: int, inversiones: seq<Inversion>)
}
