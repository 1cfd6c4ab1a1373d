/**
 * Document validity window (backend/api/services/validadores.py): a document issued on
 * some date stays valid for a number of days after it.
 */
module Validadores {
  import opened Wrappers
  import opened Text

  /** A calendar date: its day number, for comparisons, and its ISO text, for messages. */
  datatype Fecha = Fecha(dia: int, iso: string)

  /** `(valido, motivo)`: the verdict, and the reason when the document has expired. */
  datatype Vigencia = Vigencia(valido: bool, motivo: Option<string>)

  const PrefijoVencido: string := "Documento vencido (vigencia "

  /**
   * `validar_vigencia`. Without an issue date, or with no validity period (missing or
   * zero), a document is valid. Otherwise it is valid through issue date + period,
   * inclusive; past that the reason names the period and the issue date.
   */
  function ValidarVigencia(fechaEmision: Option<Fecha>, vigenciaDias: Option<int>, hoy: int): (r: Vigencia)
    ensures r.valido <==>
      || fechaEmision.None? || vigenciaDias.None? || vigenciaDias.value == 0
      || hoy <= fechaEmision.value.dia + vigenciaDias.value
    ensures r.motivo.None? <==> r.valido
    ensures !r.valido ==>
      && StartsWith(r.motivo.value, PrefijoVencido)
      && Contains(r.motivo.value, IntToString(vigenciaDias.value))
      && Contains(r.motivo.value, fechaEmision.value.iso)
  {
    if vigenciaDias.None? || vigenciaDias.value == 0 || fechaEmision.None? then Vigencia(true, None)
    else
      var limite := fechaEmision.value.dia + vigenciaDias.value;
      if hoy <= limite then Vigencia(true, None)
      else
        var v := IntToString(vigenciaDias.value);
        var iso := fechaEmision.value.iso;
        var motivo := PrefijoVencido + v + " días; emisión " + iso + ")";
        assert motivo[..|PrefijoVencido|] == PrefijoVencido;
        ContainsMiddle(PrefijoVencido, v, " días; emisión " + iso + ")");
        assert PrefijoVencido + v + (" días; emisión " + iso + ")") == motivo;
        ContainsMiddle(PrefijoVencido + v + " días; emisión ", iso, ")");
        Vigencia(false, Some(motivo))
  }

  /** A document valid today was valid on every earlier day. */
  lemma VigenteAntes(fechaEmision: Option<Fecha>, vigenciaDias: Option<int>, hoy: int, antes: int)
    requires antes <= hoy
    requires ValidarVigencia(fechaEmision, vigenciaDias, hoy).valido
    ensures ValidarVigencia(fechaEmision, vigenciaDias, antes).valido
  {
  }

  /** Lengthening a positive validity period never turns a valid document into an expired one. */
  lemma VigenciaMayor(fechaEmision: Option<Fecha>, dias: int, mas: int, hoy: int)
    requires 0 < dias <= mas
    requires ValidarVigencia(fechaEmision, Some(dias), hoy).valido
    ensures ValidarVigencia(fechaEmision, Some(mas), hoy).valido
  {
  }
}
