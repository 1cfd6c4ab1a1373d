/**
 * French-method amortisation schedule of an approved credit request
 * (backend/api/services/plan_pago.py).
 *
 * Money is held as integer cents: every amount the service stores has exactly two
 * decimals. The monthly rate stays a real number. Due dates are month indices: one
 * month after index m is m + 1.
 */
module PlanPago {
  import opened Wrappers

  /** The decimal value of an amount held in cents. */
  function Dec(c: int): real {
    c as real / 100.0
  }

  /**
   * `q2`: round to two decimals, half-up (a tie goes away from zero). The result is the
   * nearest whole number of cents.
   */
  function Q2(x: real): (c: int)
    ensures 100.0 * x - 0.5 <= c as real <= 100.0 * x + 0.5
    ensures x >= 0.0 ==> c as real > 100.0 * x - 0.5
    ensures x < 0.0 ==> (c as real) < 100.0 * x + 0.5
  {
    if x >= 0.0 then (100.0 * x + 0.5).Floor else -((-100.0 * x + 0.5).Floor)
  }

  /** The contract of `Q2` leaves exactly one candidate: it determines the rounding. */
  lemma Q2Unique(x: real, c: int)
    requires 100.0 * x - 0.5 <= c as real <= 100.0 * x + 0.5
    requires x >= 0.0 ==> c as real > 100.0 * x - 0.5
    requires x < 0.0 ==> (c as real) < 100.0 * x + 0.5
    ensures c == Q2(x)
  {
  }

  /** Rounding an amount that already has two decimals changes nothing. */
  lemma Q2Dec(c: int)
    ensures Q2(Dec(c)) == c
  {
    Q2Unique(Dec(c), c);
  }

  /** Sums and differences of two-decimal amounts are exact, so `q2` leaves them alone. */
  lemma Q2Exact(a: int, b: int)
    ensures Q2(Dec(a) + Dec(b)) == a + b
    ensures Q2(Dec(a) - Dec(b)) == a - b
  {
    assert Dec(a) + Dec(b) == Dec(a + b);
    assert Dec(a) - Dec(b) == Dec(a - b);
    Q2Dec(a + b);
    Q2Dec(a - b);
  }

  lemma DecTimes(a: int, m: int)
    ensures Dec(a) * (m as real) == Dec(a * m)
  {
    assert (a * m) as real == (a as real) * (m as real);
  }

  /** One row of the schedule (`PlanCuota`); amounts in cents, the due date as a month index. */
  datatype Cuota = Cuota(
    nroCuota: int,
    fechaVencimiento: int,
    capital: int,
    interes: int,
    cuota: int,
    saldo: int,
    ajusteRedondeo: int)

  /** The schedule's summary (`PlanPago`). */
  datatype PlanDto = PlanDto(
    metodo: string,
    moneda: string,
    primeraCuotaFecha: int,
    totalCapital: int,
    totalInteres: int,
    totalCuotas: int,
    redondeoAjusteTotal: int,
    cuota: int)

  /** The `ValueError`s of `generar_plan`, and the division by zero of a zero term. */
  datatype PlanError =
    | PlazoCero
    | NoAprobada
    | PlanExistente
    | SinUsuario
    | FaltanDatosDirectos

  /**
   * What the loop starts from: the principal rounded to cents, the monthly rate, the
   * level payment, the number of instalments and the first due date.
   */
  datatype Condiciones = Condiciones(principal: int, tasa: real, pmt: int, plazo: int, base: int)

  function SumCapital(cs: seq<Cuota>): int {
    if |cs| == 0 then 0 else SumCapital(cs[..|cs| - 1]) + cs[|cs| - 1].capital
  }

  function SumInteres(cs: seq<Cuota>): int {
    if |cs| == 0 then 0 else SumInteres(cs[..|cs| - 1]) + cs[|cs| - 1].interes
  }

  function SumCuota(cs: seq<Cuota>): int {
    if |cs| == 0 then 0 else SumCuota(cs[..|cs| - 1]) + cs[|cs| - 1].cuota
  }

  /** A month's interest on `saldo` at the monthly rate `tasa`, in cents; none at a zero rate. */
  function Interes(saldo: int, tasa: real): int {
    if tasa != 0.0 then Q2(Dec(saldo) * tasa) else 0
  }

  /** The balance before the next instalment: the principal, or the last row's balance. */
  function SaldoAntes(principal: int, pre: seq<Cuota>): int {
    if |pre| == 0 then principal else pre[|pre| - 1].saldo
  }

  /**
   * The row that follows the rows `pre`, as the French method defines it: interest on the
   * outstanding balance, a level payment, and a last row that pays off whatever is left.
   */
  predicate CuotaFrancesa(k: Condiciones, pre: seq<Cuota>, c: Cuota) {
    var nro := |pre| + 1;
    var prev := SaldoAntes(k.principal, pre);
    && c.nroCuota == nro
    && c.fechaVencimiento == k.base + |pre|
    && c.interes == Interes(prev, k.tasa)
    && c.saldo == prev - c.capital
    && if nro < k.plazo then
         && c.capital == (if k.tasa != 0.0 then k.pmt - c.interes else Q2(Dec(k.principal) / (k.plazo as real)))
         && c.cuota == (if k.tasa != 0.0 then k.pmt else c.capital + c.interes)
         && c.ajusteRedondeo == 0
       else
         && c.capital == prev
         && c.cuota == c.capital + c.interes
         && c.ajusteRedondeo == (k.principal + SumInteres(pre) + c.interes) - (k.pmt * (k.plazo - 1) + c.cuota)
  }

  /** With a zero rate the level payment is the principal split evenly, rounded to cents. */
  predicate PmtCoherente(k: Condiciones) {
    k.tasa == 0.0 && k.plazo != 0 ==> k.pmt == Q2(Dec(k.principal) / (k.plazo as real))
  }

  /** `cs` is the French schedule for `k`: one row per month, each one as `CuotaFrancesa` says. */
  predicate EsCronogramaFrances(k: Condiciones, cs: seq<Cuota>) {
    && PmtCoherente(k)
    && |cs| == (if k.plazo > 0 then k.plazo else 0)
    && forall i :: 0 <= i < |cs| ==> CuotaFrancesa(k, cs[..i], cs[i])
  }

  /** The summary the service returns beside the rows. */
  predicate EsResumen(k: Condiciones, moneda: string, cs: seq<Cuota>, plan: PlanDto) {
    && plan.metodo == "frances"
    && plan.moneda == moneda
    && plan.primeraCuotaFecha == (if |cs| > 0 then cs[0].fechaVencimiento else k.base)
    && plan.totalCapital == SumCapital(cs)
    && plan.totalInteres == SumInteres(cs)
    && plan.totalCuotas == SumCapital(cs) + SumInteres(cs)
    && plan.redondeoAjusteTotal == (if |cs| > 0 then cs[|cs| - 1].ajusteRedondeo else 0)
    && plan.cuota == k.pmt
  }

  /** The level payment: `q2(P / n)` at a zero rate, otherwise the annuity formula's value. */
  function Pmt(principal: int, tasa: real, plazo: int, pmtFormula: int): int
    requires plazo != 0
  {
    if tasa == 0.0 then Q2(Dec(principal) / (plazo as real)) else pmtFormula
  }

  /** The loop's starting point for a capital, a term, a nominal annual rate (percent) and a first due date. */
  function CondicionesDe(capital: real, plazoMeses: int, tna: real, pmtFormula: int, base: int): Condiciones
    requires plazoMeses != 0
  {
    var P := Q2(capital);
    var r := tna / 1200.0;
    Condiciones(P, r, Pmt(P, r, plazoMeses, pmtFormula), plazoMeses, base)
  }

  /** The first due date: the one given, else the month after the current one. */
  function FechaBase(primeraCuotaFecha: Option<int>, mesActual: int): int {
    match primeraCuotaFecha
    case Some(d) => d
    case None => mesActual + 1
  }

  /**
   * `_calcular_cronograma_frances`. The annuity payment `q2(P·r / (1 − (1 + r)^−n))` is
   * computed by the caller and passed as `pmtFormula`; it is used only when the rate is
   * not zero. A zero term divides by zero in the source and is `PlazoCero` here.
   */
  method CalcularCronogramaFrances(
    capital: real, plazoMeses: int, tna: real, pmtFormula: int,
    primeraCuotaFecha: Option<int>, mesActual: int, moneda: string)
    returns (res: Result<(PlanDto, seq<Cuota>), PlanError>)
    ensures res.Err? <==> plazoMeses == 0
    ensures res.Err? ==> res.error == PlazoCero
    ensures res.Ok? ==>
      var k := CondicionesDe(capital, plazoMeses, tna, pmtFormula, FechaBase(primeraCuotaFecha, mesActual));
      && EsCronogramaFrances(k, res.value.1)
      && EsResumen(k, moneda, res.value.1, res.value.0)
  {
    var P := Q2(capital);
    var n := plazoMeses;
    var r := tna / 1200.0;
    if n == 0 {
      return Err(PlazoCero);
    }
    var pmt := if r == 0.0 then Q2(Dec(P) / (n as real)) else pmtFormula;
    var base := if primeraCuotaFecha.Some? then primeraCuotaFecha.value else mesActual + 1;
    ghost var k := Condiciones(P, r, pmt, n, base);
    assert k == CondicionesDe(capital, plazoMeses, tna, pmtFormula, FechaBase(primeraCuotaFecha, mesActual));
    assert PmtCoherente(k);

    var fecha := base;
    var cuotas: seq<Cuota> := [];
    var saldo := P;
    var totCap := 0;
    var totInt := 0;
    var ajusteTotal := 0;
    var i := 1;
    while i <= n
      invariant 1 <= i && (n >= 1 ==> i <= n + 1) && (n < 1 ==> i == 1)
      invariant |cuotas| == i - 1
      invariant fecha == base + (i - 1)
      invariant saldo == SaldoAntes(P, cuotas)
      invariant totCap == SumCapital(cuotas) && totInt == SumInteres(cuotas)
      invariant ajusteTotal == (if n >= 1 && i == n + 1 then cuotas[n - 1].ajusteRedondeo else 0)
      invariant forall j :: 0 <= j < |cuotas| ==> CuotaFrancesa(k, cuotas[..j], cuotas[j])
    {
      var c := CalcularCuota(P, r, pmt, n, i, fecha, saldo, totInt, k, cuotas);
      if i == n {
        ajusteTotal := c.ajusteRedondeo;
      }
      AppendRow(k, cuotas, c);
      cuotas := cuotas + [c];
      saldo := c.saldo;
      fecha := fecha + 1;
      totCap := totCap + c.capital;
      totInt := totInt + c.interes;
      i := i + 1;
    }
    assert EsCronogramaFrances(k, cuotas);
    var plan := ArmarPlan(k, moneda, cuotas, base, pmt, totCap, totInt, ajusteTotal);
    return Ok((plan, cuotas));
  }

  /** `plan_dto`: the schedule's totals, each rounded with `q2`. */
  method ArmarPlan(ghost k: Condiciones, moneda: string, cuotas: seq<Cuota>, base: int, pmt: int,
                   totCap: int, totInt: int, ajusteTotal: int)
    returns (plan: PlanDto)
    requires base == k.base && pmt == k.pmt
    requires totCap == SumCapital(cuotas) && totInt == SumInteres(cuotas)
    requires ajusteTotal == (if |cuotas| > 0 then cuotas[|cuotas| - 1].ajusteRedondeo else 0)
    ensures EsResumen(k, moneda, cuotas, plan)
  {
    Q2Dec(totCap);
    Q2Dec(totInt);
    Q2Dec(ajusteTotal);
    Q2Exact(totCap, totInt);
    plan := PlanDto("frances", moneda, if |cuotas| > 0 then cuotas[0].fechaVencimiento else base,
                    Q2(Dec(totCap)), Q2(Dec(totInt)), Q2(Dec(totCap) + Dec(totInt)), Q2(Dec(ajusteTotal)), pmt);
  }

  /**
   * One pass of the schedule loop: instalment number `i` (from 1), due on `fecha`, on the
   * balance `saldo` left by the earlier rows, whose interest adds up to `totInt`.
   */
  method CalcularCuota(P: int, r: real, pmt: int, n: int, i: int, fecha: int, saldo: int, totInt: int,
                       ghost k: Condiciones, ghost pre: seq<Cuota>)
    returns (c: Cuota)
    requires k == Condiciones(P, r, pmt, n, k.base)
    requires 1 <= i <= n && |pre| == i - 1 && fecha == k.base + (i - 1)
    requires saldo == SaldoAntes(P, pre) && totInt == SumInteres(pre)
    ensures CuotaFrancesa(k, pre, c)
  {
    var interes := if r != 0.0 then Q2(Dec(saldo) * r) else 0;
    assert interes == Interes(saldo, r);
    var capitalK := if r != 0.0 then Q2(Dec(pmt) - Dec(interes)) else Q2(Dec(P) / (n as real));
    var cuotaK := if r != 0.0 then pmt else Q2(Dec(capitalK) + Dec(interes));
    var ajuste := 0;
    if i == n {
      capitalK := Q2(Dec(saldo));
      Q2Dec(saldo);
      assert capitalK == saldo;
      cuotaK := Q2(Dec(capitalK) + Dec(interes));
      Q2Exact(capitalK, interes);
      assert cuotaK == capitalK + interes;
      var diferencia := (Dec(P) + Dec(totInt) + Dec(interes)) - (Dec(pmt) * ((n - 1) as real) + Dec(cuotaK));
      AjusteExacto(P, totInt, interes, pmt, n - 1, cuotaK, diferencia);
      ajuste := Q2(diferencia);
      assert ajuste == (P + totInt + interes) - (pmt * (n - 1) + cuotaK);
    } else {
      Q2Exact(pmt, interes);
      Q2Exact(capitalK, interes);
    }
    var nuevoSaldo := Q2(Dec(saldo) - Dec(capitalK));
    Q2Exact(saldo, capitalK);
    c := Cuota(i, fecha, capitalK, interes, cuotaK, nuevoSaldo, if i < n then 0 else ajuste);
  }

  /** The closing adjustment is computed on two-decimal amounts, so its rounding is exact. */
  lemma AjusteExacto(P: int, totInt: int, interes: int, pmt: int, m: int, cuota: int, diferencia: real)
    requires diferencia == (Dec(P) + Dec(totInt) + Dec(interes)) - (Dec(pmt) * (m as real) + Dec(cuota))
    ensures Q2(diferencia) == (P + totInt + interes) - (pmt * m + cuota)
  {
    DecTimes(pmt, m);
    assert diferencia == Dec((P + totInt + interes) - (pmt * m + cuota));
    Q2Dec((P + totInt + interes) - (pmt * m + cuota));
  }

  /** Appending a row keeps the earlier rows' conditions and extends the running sums. */
  lemma AppendRow(k: Condiciones, cs: seq<Cuota>, c: Cuota)
    requires forall j :: 0 <= j < |cs| ==> CuotaFrancesa(k, cs[..j], cs[j])
    requires CuotaFrancesa(k, cs, c)
    ensures forall j :: 0 <= j < |cs + [c]| ==> CuotaFrancesa(k, (cs + [c])[..j], (cs + [c])[j])
    ensures SumCapital(cs + [c]) == SumCapital(cs) + c.capital
    ensures SumInteres(cs + [c]) == SumInteres(cs) + c.interes
    ensures SaldoAntes(k.principal, cs + [c]) == c.saldo
  {
    assert (cs + [c])[..|cs|] == cs;
    forall j | 0 <= j < |cs|
      ensures CuotaFrancesa(k, (cs + [c])[..j], (cs + [c])[j])
    {
      assert (cs + [c])[..j] == cs[..j];
    }
  }

  /**
   * Running totals of a schedule's first `j` rows: every payment is capital plus interest,
   * and the balance is the principal less the capital repaid so far.
   */
  lemma {:induction false} Acumulados(k: Condiciones, cs: seq<Cuota>, j: nat)
    requires EsCronogramaFrances(k, cs)
    requires j <= |cs|
    ensures SumCuota(cs[..j]) == SumCapital(cs[..j]) + SumInteres(cs[..j])
    ensures SaldoAntes(k.principal, cs[..j]) == k.principal - SumCapital(cs[..j])
  {
    if j > 0 {
      Acumulados(k, cs, j - 1);
      assert cs[..j][..j - 1] == cs[..j - 1];
      assert cs[..j][j - 1] == cs[j - 1];
      assert CuotaFrancesa(k, cs[..j - 1], cs[j - 1]);
    }
  }

  /** Every row before the last one pays exactly the level payment. */
  lemma CuotasNiveladas(k: Condiciones, cs: seq<Cuota>, j: nat)
    requires EsCronogramaFrances(k, cs)
    requires j < |cs|
    ensures SumCuota(cs[..j]) == k.pmt * j
  {
    forall i | 0 <= i < j
      ensures cs[..j][i].cuota == k.pmt
    {
      CuotaNivelada(k, cs[..i], cs[i]);
    }
    SumaConstante(cs[..j], k.pmt);
  }

  /** Rows that all pay `v` add up to `v` times their number. */
  lemma {:induction false} SumaConstante(xs: seq<Cuota>, v: int)
    requires forall i :: 0 <= i < |xs| ==> xs[i].cuota == v
    ensures SumCuota(xs) == v * |xs|
  {
    if |xs| > 0 {
      SumaConstante(xs[..|xs| - 1], v);
    }
  }

  lemma CuotaNivelada(k: Condiciones, pre: seq<Cuota>, c: Cuota)
    requires PmtCoherente(k) && CuotaFrancesa(k, pre, c)
    requires |pre| + 1 < k.plazo
    ensures c.cuota == k.pmt
  {
    if k.tasa == 0.0 {
      assert c.capital == Q2(Dec(k.principal) / (k.plazo as real));
    }
  }

  /**
   * What the schedule promises: the last row leaves nothing owed, the capital repaid adds
   * up to the principal, the total paid is the sum of the rows' payments, and the closing
   * rounding adjustment (`ajuste_total`) always comes out as zero.
   */
  lemma PlanCierra(k: Condiciones, moneda: string, cs: seq<Cuota>, plan: PlanDto)
    requires EsCronogramaFrances(k, cs) && EsResumen(k, moneda, cs, plan)
    requires k.plazo >= 1
    ensures cs[|cs| - 1].saldo == 0
    ensures plan.totalCapital == k.principal
    ensures plan.totalCuotas == SumCuota(cs)
    ensures plan.redondeoAjusteTotal == 0
  {
    var n := |cs|;
    var pre := cs[..n - 1];
    assert cs[..n] == cs;
    assert CuotaFrancesa(k, pre, cs[n - 1]);
    Acumulados(k, cs, n - 1);
    Acumulados(k, cs, n);
    CuotasNiveladas(k, cs, n - 1);
  }

  /** The fields of a `SolicitudCredito` that `generar_plan` reads. */
  datatype SolicitudPlan = SolicitudPlan(
    estado: string,
    tienePlan: bool,
    monto: real,
    plazoMeses: int,
    tasaNominalAnual: real,
    moneda: string,
    mesAprobacion: Option<int>)

  /** The inputs of the schedule computation once `generar_plan` has resolved them. */
  datatype Entrada = Entrada(capital: real, plazo: int, tasa: real, moneda: string, primeraCuota: int)

  /** The outcome of input resolution: whether an existing plan was deleted, and the inputs or the error. */
  datatype Resolucion = Resolucion(planBorrado: bool, entrada: Result<Entrada, PlanError>)

  /**
   * The validation ladder of `generar_plan`, in the order the source checks it. With
   * `persistir` and `overwrite` an existing plan is deleted before the missing user is
   * noticed, so the deletion survives that error.
   */
  function ResolverEntrada(
    solicitud: Option<SolicitudPlan>, hayUsuario: bool,
    capital: Option<real>, plazoMeses: Option<int>, tna: Option<real>, moneda: Option<string>,
    primeraCuotaFecha: Option<int>, persistir: bool, overwrite: bool, mesActual: int)
    : (r: Resolucion)
    ensures r.planBorrado <==>
      solicitud.Some? && solicitud.value.estado == "APROBADA" && persistir && overwrite && solicitud.value.tienePlan
    ensures r.entrada == Err(NoAprobada) <==> solicitud.Some? && solicitud.value.estado != "APROBADA"
    ensures r.entrada == Err(PlanExistente) <==>
      solicitud.Some? && solicitud.value.estado == "APROBADA" && persistir && !overwrite && solicitud.value.tienePlan
    ensures r.entrada == Err(SinUsuario) <==>
      solicitud.Some? && solicitud.value.estado == "APROBADA" && persistir
      && (overwrite || !solicitud.value.tienePlan) && !hayUsuario
    ensures r.entrada == Err(FaltanDatosDirectos) <==>
      solicitud.None? && (capital.None? || plazoMeses.None? || tna.None?)
    ensures r.entrada.Err? ==> r.entrada.error != PlazoCero
    ensures r.entrada.Ok? && solicitud.Some? ==>
      var s := solicitud.value;
      r.entrada.value == Entrada(s.monto, s.plazoMeses, s.tasaNominalAnual, s.moneda,
                                 primeraCuotaFecha.GetOr(s.mesAprobacion.GetOr(mesActual) + 1))
    ensures r.entrada.Ok? && solicitud.None? ==>
      && r.entrada.value.capital == capital.value
      && r.entrada.value.plazo == plazoMeses.value
      && r.entrada.value.tasa == tna.value
      && r.entrada.value.moneda == (if moneda.None? || moneda.value == "" then "BOB" else moneda.value)
      && r.entrada.value.primeraCuota == FechaBase(primeraCuotaFecha, mesActual)
  {
    match solicitud
    case Some(s) =>
      if s.estado != "APROBADA" then Resolucion(false, Err(NoAprobada))
      else
        var borrado := persistir && overwrite && s.tienePlan;
        if persistir && !overwrite && s.tienePlan then Resolucion(false, Err(PlanExistente))
        else if persistir && !hayUsuario then Resolucion(borrado, Err(SinUsuario))
        else
          var base := s.mesAprobacion.GetOr(mesActual) + 1;
          var base' := if primeraCuotaFecha.Some? then primeraCuotaFecha.value else base;
          Resolucion(borrado, Ok(Entrada(s.monto, s.plazoMeses, s.tasaNominalAnual, s.moneda, base')))
    case None =>
      if capital.None? || plazoMeses.None? || tna.None? then Resolucion(false, Err(FaltanDatosDirectos))
      else
        var mon := if moneda.Some? && moneda.value != "" then moneda.value else "BOB";
        var base := if primeraCuotaFecha.Some? then primeraCuotaFecha.value else mesActual + 1;
        Resolucion(false, Ok(Entrada(capital.value, plazoMeses.value, tna.value, mon, base)))
  }

  /**
   * Without persistence nothing is deleted, and neither the user nor an existing plan nor
   * `overwrite` affects the outcome. The request itself is still validated and read.
   */
  lemma SimularIgnoraPersistencia(
    solicitud: Option<SolicitudPlan>, hayUsuario: bool, hayUsuario': bool, tienePlan': bool,
    capital: Option<real>, plazoMeses: Option<int>, tna: Option<real>, moneda: Option<string>,
    primeraCuotaFecha: Option<int>, overwrite: bool, overwrite': bool, mesActual: int)
    ensures
      var r := ResolverEntrada(solicitud, hayUsuario, capital, plazoMeses, tna, moneda,
                               primeraCuotaFecha, false, overwrite, mesActual);
      var otra := if solicitud.Some? then Some(solicitud.value.(tienePlan := tienePlan')) else None;
      && !r.planBorrado
      && r == ResolverEntrada(otra, hayUsuario', capital, plazoMeses, tna, moneda,
                              primeraCuotaFecha, false, overwrite', mesActual)
  {
  }

  /** What `generar_plan` hands back: the summary and rows, and whether they go to the database. */
  datatype PlanGenerado = PlanGenerado(plan: PlanDto, cuotas: seq<Cuota>, persistido: bool)

  /**
   * `generar_plan`: resolve the inputs, compute the French schedule, and either return it
   * (simulation) or mark it for storage. The database writes themselves are not modelled.
   */
  method GenerarPlan(
    solicitud: Option<SolicitudPlan>, hayUsuario: bool,
    capital: Option<real>, plazoMeses: Option<int>, tna: Option<real>, moneda: Option<string>,
    primeraCuotaFecha: Option<int>, persistir: bool, overwrite: bool, mesActual: int, pmtFormula: int)
    returns (planBorrado: bool, res: Result<PlanGenerado, PlanError>)
    ensures
      var r := ResolverEntrada(solicitud, hayUsuario, capital, plazoMeses, tna, moneda,
                               primeraCuotaFecha, persistir, overwrite, mesActual);
      && planBorrado == r.planBorrado
      && (r.entrada.Err? ==> res == Err(r.entrada.error))
      && (r.entrada.Ok? ==>
            var e := r.entrada.value;
            && (res.Err? <==> e.plazo == 0)
            && (res.Err? ==> res.error == PlazoCero)
            && (res.Ok? ==>
                  var k := CondicionesDe(e.capital, e.plazo, e.tasa, pmtFormula, e.primeraCuota);
                  && res.value.persistido == persistir
                  && EsCronogramaFrances(k, res.value.cuotas)
                  && EsResumen(k, e.moneda, res.value.cuotas, res.value.plan)))
  {
    var r := ResolverEntrada(solicitud, hayUsuario, capital, plazoMeses, tna, moneda,
                             primeraCuotaFecha, persistir, overwrite, mesActual);
    planBorrado := r.planBorrado;
    if r.entrada.Err? {
      return planBorrado, Err(r.entrada.error);
    }
    var e := r.entrada.value;
    var calculo := CalcularCronogramaFrances(e.capital, e.plazo, e.tasa, pmtFormula, Some(e.primeraCuota), mesActual, e.moneda);
    if calculo.Err? {
      return planBorrado, Err(calculo.error);
    }
    res := Ok(PlanGenerado(calculo.value.0, calculo.value.1, persistir));
  }
}
