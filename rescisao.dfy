/** The severance calculator of calculadora.ts (`calcularRescisao`) and the
    month-by-month severance-fund (FGTS) walk it uses when there are raises. */
module Rescisao {
  import opened Optional
  import opened Money
  import opened Calendar
  import opened Salarios
  import opened Periodos

  // ---------------------------------------------------------------------------
  // calcularFGTSComAumentos
  // ---------------------------------------------------------------------------

  /** Months from the month of `mes` through the month of `fim`, inclusive. */
  function MesesAte(mes: Date, fim: Date): nat {
    if MonthIndex(fim) < MonthIndex(mes) then 0 else MonthIndex(fim) - MonthIndex(mes) + 1
  }

  /** The deposits of `n` consecutive months from the first day `mes`: 8% of
      the salary in force on the first day of each month. */
  function Depositos(salarioInicial: real, aumentos: seq<AumentoSalarial>, mes: Date, n: nat): real
    requires Valid(mes) && mes.day == 1
    decreases n
  {
    if n == 0 then 0.0
    else SalarioVigente(salarioInicial, aumentos, mes) * 0.08 + Depositos(salarioInicial, aumentos, NextMonth(mes), n - 1)
  }

  /** The severance-fund balance accrued from the admission month through the
      termination month inclusive, rounded to cents. */
  function FGTSComAumentos(salarioInicial: real, aumentos: seq<AumentoSalarial>, admissao: Date, demissao: Date): real
    requires Valid(admissao) && Valid(demissao)
  {
    Round(Depositos(salarioInicial, aumentos, FirstOfMonth(admissao), MesesAte(admissao, demissao)))
  }

  /** `calcularFGTSComAumentos`: walks the months with `setMonth(getMonth() + 1)`. */
  method CalcularFGTSComAumentos(salarioInicial: real, aumentos: seq<AumentoSalarial>, admissao: Date, demissao: Date)
    returns (r: real)
    requires Valid(admissao) && Valid(demissao)
    ensures r == FGTSComAumentos(salarioInicial, aumentos, admissao, demissao)
  {
    var total := 0.0;
    var current := FirstOfMonth(admissao);
    var fim := FirstOfMonth(demissao);
    while AtOrBefore(current, fim)
      invariant Valid(current) && current.day == 1
      invariant total + Depositos(salarioInicial, aumentos, current, MesesAte(current, fim))
             == Depositos(salarioInicial, aumentos, FirstOfMonth(admissao), MesesAte(admissao, demissao))
      decreases MesesAte(current, fim)
    {
      var salarioMes := CalcularSalarioVigente(salarioInicial, aumentos, current);
      total := total + salarioMes * 0.08;
      current := NextMonth(current);
    }
    r := Round(total);
  }

  lemma {:induction false} DepositosConstantes(salarioInicial: real, aumentos: seq<AumentoSalarial>, mes: Date, n: nat, fim: Date)
    requires Valid(mes) && mes.day == 1 && Valid(fim) && fim.day == 1
    requires n == 0 || MonthIndex(mes) + n <= MonthIndex(fim) + 1
    requires forall i :: 0 <= i < |aumentos| ==> Before(fim, aumentos[i].data)
    ensures Depositos(salarioInicial, aumentos, mes, n) == Round(salarioInicial) * 0.08 * n as real
    decreases n
  {
    if n > 0 {
      forall i | 0 <= i < |aumentos| ensures Before(mes, aumentos[i].data) {
      }
      SalarioVigenteSemAumentos(salarioInicial, aumentos, mes);
      DepositosConstantes(salarioInicial, aumentos, NextMonth(mes), n - 1, fim);
    }
  }

  /** When every month deposits the same 8% of a salary, the fund balance is
      the estimate for that salary and that many months. */
  lemma FGTSDeDepositosIguais(salarioInicial: real, aumentos: seq<AumentoSalarial>, admissao: Date, demissao: Date)
    requires Valid(admissao) && Valid(demissao)
    requires Depositos(salarioInicial, aumentos, FirstOfMonth(admissao), MesesAte(admissao, demissao))
          == Round(salarioInicial) * 0.08 * MesesAte(admissao, demissao) as real
    ensures FGTSComAumentos(salarioInicial, aumentos, admissao, demissao)
         == FGTSSemAumentos(Round(salarioInicial), MesesAte(admissao, demissao))
  {
  }

  /** When no raise takes effect by the first day of the termination month, the
      walk deposits 8% of the starting salary (rounded to cents) for every
      calendar month from the admission month through the termination month. */
  lemma FGTSSemAumentoEmVigor(salarioInicial: real, aumentos: seq<AumentoSalarial>, admissao: Date, demissao: Date)
    requires Valid(admissao) && Valid(demissao)
    requires forall i :: 0 <= i < |aumentos| ==> Before(FirstOfMonth(demissao), aumentos[i].data)
    ensures FGTSComAumentos(salarioInicial, aumentos, admissao, demissao)
         == FGTSSemAumentos(Round(salarioInicial), MesesAte(admissao, demissao))
  {
    var n := MesesAte(admissao, demissao);
    DepositosConstantes(salarioInicial, aumentos, FirstOfMonth(admissao), n, FirstOfMonth(demissao));
    FGTSDeDepositosIguais(salarioInicial, aumentos, admissao, demissao);
  }

  // ---------------------------------------------------------------------------
  // calcularRescisao
  // ---------------------------------------------------------------------------

  datatype TipoRescisao = SemJustaCausa | JustaCausa | PedidoDemissao

  /** `DadosRescisao`; an absent `aumentos` list is the empty list. */
  datatype DadosRescisao = DadosRescisao(
    salario: real,
    dataAdmissao: Date,
    dataDemissao: Date,
    tipoRescisao: TipoRescisao,
    saldoFGTS: Option<real>,
    periodosVencidosManuais: Option<int>,
    periodosEmDobroManuais: Option<int>,
    aumentos: seq<AumentoSalarial>,
    nomeFuncionario: Option<string>)

  datatype ResultadoRescisao = ResultadoRescisao(
    saldoSalario: real,
    feriasVencidas: real,
    feriasDobro: real,
    feriasProporcionais: real,
    totalFerias: real,
    decimoTerceiro: real,
    avisoPrevio: real,
    avisoPrevioDias: int,
    fgtsTotal: real,
    multaFGTS: real,
    totalGeral: real,
    mesesTotais: nat,
    anosCompletos: nat,
    mesesRestantes: nat,
    diasTrabalhadosMesDemissao: int,
    periodosVencidos: int,
    periodosEmDobro: int,
    salarioFinal: real,
    historicoAumentos: Option<seq<Registro>>)

  /** The dates of a termination case are real calendar dates. */
  predicate DatasValidas(dados: DadosRescisao) {
    Valid(dados.dataAdmissao) && Valid(dados.dataDemissao)
  }

  /** `diasNoMes`: the days worked in the termination month are its day of month. */
  function DiasNoMes(data: Date): int {
    data.day
  }

  /** `Math.min(30 + 3 * anosCompletos, 90)`: days of notice in lieu. */
  function DiasAvisoPrevio(anosCompletos: nat): (d: int)
    ensures 30 <= d <= 90
    ensures d <= 30 + 3 * anosCompletos && (d == 30 + 3 * anosCompletos || d == 90)
  {
    if 30 + 3 * anosCompletos < 90 then 30 + 3 * anosCompletos else 90
  }

  /** The proportional year-end bonus: whole months since the later of the
      admission and 1 January of the termination year, at most 12. */
  function Meses13(admissao: Date, demissao: Date): (m: nat)
    requires Valid(admissao) && Valid(demissao)
    ensures m <= 12
  {
    var inicioAno := Date(demissao.year, 1, 1);
    var dataRef := if Before(inicioAno, admissao) then admissao else inicioAno;
    var meses13 := DiffMeses(dataRef, demissao);
    if meses13 < 12 then meses13 else 12
  }

  /** The salary in force at termination: the starting salary itself when there
      are no raises, otherwise the salary in force on the termination date. */
  function SalarioFinal(salario: real, aumentos: seq<AumentoSalarial>, demissao: Date): real {
    if |aumentos| > 0 then SalarioVigente(salario, aumentos, demissao) else salario
  }

  /** Pending periods: the manual count when given, otherwise the computed one. */
  function PeriodosVencidos(manuais: Option<int>, admissao: Date, demissao: Date): int
    requires Valid(admissao) && Valid(demissao)
  {
    match manuais
    case Some(n) => n
    case None => PeriodosFerias(admissao, demissao).periodosVencidos
  }

  /** Doubled periods: the manual count when given, otherwise the computed one. */
  function PeriodosEmDobro(manuais: Option<int>, admissao: Date, demissao: Date): int
    requires Valid(admissao) && Valid(demissao)
  {
    match manuais
    case Some(n) => n
    case None => PeriodosFerias(admissao, demissao).periodosEmDobro
  }

  /** The severance-fund balance: a known balance verbatim (rounded); otherwise,
      with raises, the month-by-month walk; otherwise 8% of the salary times the months of service. */
  function FGTSTotal(saldoFGTS: Option<real>, salario: real, aumentos: seq<AumentoSalarial>,
                     admissao: Date, demissao: Date): (v: real)
    requires Valid(admissao) && Valid(demissao)
    ensures IsCents(v)
  {
    match saldoFGTS
    case Some(v) => Round(v)
    case None =>
      if |aumentos| > 0 then FGTSComAumentos(salario, aumentos, admissao, demissao)
      else FGTSSemAumentos(salario, DiffMeses(admissao, demissao))
  }

  /** The estimated fund without raises: 8% of the salary for each month of service. */
  function FGTSSemAumentos(salario: real, mesesTotais: nat): (v: real)
    ensures IsCents(v)
    ensures salario >= 0.0 ==> v >= 0.0
  {
    Round(salario * 0.08 * mesesTotais as real)
  }

  /** What `calcularRescisao` works out before it looks at the cause of termination. */
  datatype Base = Base(
    salarioFinal: real,
    mesesTotais: nat,
    diasTrabalhados: int,
    meses13: nat,
    periodosVencidos: int,
    periodosEmDobro: int,
    fgtsTotal: real,
    historicoAumentos: Option<seq<Registro>>)

  /** The cause-independent part of a termination case. */
  function BaseRescisao(dados: DadosRescisao): (b: Base)
    requires DatasValidas(dados)
    ensures b.mesesTotais == DiffMeses(dados.dataAdmissao, dados.dataDemissao)
    ensures b.meses13 <= 12
    ensures dados.periodosVencidosManuais.Some? ==> b.periodosVencidos == dados.periodosVencidosManuais.value
    ensures dados.periodosVencidosManuais.None? ==>
              b.periodosVencidos == PeriodosFerias(dados.dataAdmissao, dados.dataDemissao).periodosVencidos
    ensures dados.periodosEmDobroManuais.Some? ==> b.periodosEmDobro == dados.periodosEmDobroManuais.value
    ensures dados.periodosEmDobroManuais.None? ==>
              b.periodosEmDobro == PeriodosFerias(dados.dataAdmissao, dados.dataDemissao).periodosEmDobro
    ensures |dados.aumentos| == 0 ==> b.salarioFinal == dados.salario && b.historicoAumentos == None
    ensures |dados.aumentos| > 0 ==>
              IsCents(b.salarioFinal) && b.historicoAumentos.Some? && |b.historicoAumentos.value| == |dados.aumentos|
    ensures IsCents(b.fgtsTotal)
  {
    var admissao, demissao := dados.dataAdmissao, dados.dataDemissao;
    Base(
      SalarioFinal(dados.salario, dados.aumentos, demissao),
      DiffMeses(admissao, demissao),
      DiasNoMes(demissao),
      Meses13(admissao, demissao),
      PeriodosVencidos(dados.periodosVencidosManuais, admissao, demissao),
      PeriodosEmDobro(dados.periodosEmDobroManuais, admissao, demissao),
      FGTSTotal(dados.saldoFGTS, dados.salario, dados.aumentos, admissao, demissao),
      if |dados.aumentos| > 0 then Some(HistoricoSalarios(dados.salario, dados.aumentos)) else None)
  }

  /** Up to twelve twelfths of a salary are at most the salary. */
  lemma Duodecimos(salario: real, meses: int)
    requires salario >= 0.0 && 0 <= meses <= 12
    ensures 0.0 <= salario / 12.0 * meses as real <= salario
  {
    ScaleMonotone(meses as real, 12.0, salario / 12.0);
    ScaleMonotone(0.0, meses as real, salario / 12.0);
  }

  /** Thirty to ninety thirtieths of a salary lie between one and three salaries. */
  lemma Diarias(salario: real, dias: int)
    requires salario >= 0.0 && 30 <= dias <= 90
    ensures salario <= salario / 30.0 * dias as real <= 3.0 * salario
  {
    ScaleMonotone(30.0, dias as real, salario / 30.0);
    ScaleMonotone(dias as real, 90.0, salario / 30.0);
  }

  /** One vacation period with its constitutional third. */
  function ValorFeriasUmPeriodo(salarioFinal: real): (v: real)
    ensures salarioFinal >= 0.0 ==> salarioFinal <= v
  {
    salarioFinal + salarioFinal / 3.0
  }

  /** The balance of salary: the daily rate (a thirtieth) times the days worked. */
  function SaldoSalario(salarioFinal: real, dias: int): (v: real)
    ensures IsCents(v)
    ensures salarioFinal >= 0.0 && dias >= 0 ==> v >= 0.0
  {
    Round(salarioFinal / 30.0 * dias as real)
  }

  /** Pending vacation: one period with its third for each pending year. */
  function FeriasVencidas(salarioFinal: real, periodos: int): (v: real)
    ensures IsCents(v)
    ensures salarioFinal >= 0.0 && periodos >= 0 ==> v >= 0.0
  {
    Round(periodos as real * ValorFeriasUmPeriodo(salarioFinal))
  }

  /** Doubled vacation: twice one period with its third for each doubled year. */
  function FeriasDobro(salarioFinal: real, periodos: int): (v: real)
    ensures IsCents(v)
    ensures salarioFinal >= 0.0 && periodos >= 0 ==> v >= 0.0
  {
    Round(periodos as real * ValorFeriasUmPeriodo(salarioFinal) * 2.0)
  }

  /** Proportional vacation with its third; forfeited for cause. */
  function FeriasProporcionais(tipo: TipoRescisao, salarioFinal: real, mesesRestantes: nat): (v: real)
    ensures IsCents(v)
    ensures tipo == JustaCausa || mesesRestantes == 0 ==> v == 0.0
    ensures salarioFinal >= 0.0 ==> v >= 0.0
  {
    if tipo == JustaCausa || mesesRestantes == 0 then 0.0
    else
      var base := salarioFinal / 12.0 * mesesRestantes as real;
      Round(base + base / 3.0)
  }

  /** Proportional year-end bonus; not due for cause, and never more than one salary. */
  function DecimoTerceiro(tipo: TipoRescisao, salarioFinal: real, meses13: nat): (v: real)
    requires meses13 <= 12
    ensures IsCents(v)
    ensures tipo == JustaCausa ==> v == 0.0
    ensures salarioFinal >= 0.0 ==> 0.0 <= v <= Round(salarioFinal)
  {
    if tipo == JustaCausa then 0.0
    else
      var x := salarioFinal / 12.0 * meses13 as real;
      if salarioFinal >= 0.0 then
        Duodecimos(salarioFinal, meses13);
        RoundMonotone(x, salarioFinal);
        Round(x)
      else Round(x)
  }

  /** Days of notice: only without cause. */
  function AvisoPrevioDias(tipo: TipoRescisao, anosCompletos: nat): (d: int)
    ensures tipo == SemJustaCausa ==> 30 <= d <= 90
    ensures tipo != SemJustaCausa ==> d == 0
  {
    if tipo == SemJustaCausa then DiasAvisoPrevio(anosCompletos) else 0
  }

  /** Notice pay: the daily rate times the days of notice, without cause only;
      30 to 90 days make it one to three salaries. */
  function AvisoPrevio(tipo: TipoRescisao, salarioFinal: real, avisoPrevioDias: int): (v: real)
    ensures IsCents(v)
    ensures tipo != SemJustaCausa ==> v == 0.0
    ensures tipo == SemJustaCausa && salarioFinal >= 0.0 && 30 <= avisoPrevioDias <= 90 ==>
              Round(salarioFinal) <= v <= Round(3.0 * salarioFinal)
  {
    if tipo == SemJustaCausa then
      var x := salarioFinal / 30.0 * avisoPrevioDias as real;
      if salarioFinal >= 0.0 && 30 <= avisoPrevioDias <= 90 then
        Diarias(salarioFinal, avisoPrevioDias);
        RoundMonotone(salarioFinal, x);
        RoundMonotone(x, 3.0 * salarioFinal);
        Round(x)
      else Round(x)
    else 0.0
  }

  /** The 40% penalty on the fund, due only without cause. */
  function MultaFGTS(tipo: TipoRescisao, fgtsTotal: real): (v: real)
    ensures IsCents(v)
    ensures tipo != SemJustaCausa ==> v == 0.0
    ensures fgtsTotal >= 0.0 ==> v >= 0.0
  {
    if tipo == SemJustaCausa then Round(fgtsTotal * 0.4) else 0.0
  }

  /** The grand total: what each cause adds up. */
  function TotalGeral(tipo: TipoRescisao, saldoSalario: real, feriasVencidas: real, feriasDobro: real,
                      totalFerias: real, decimoTerceiro: real, avisoPrevio: real, multaFGTS: real): real
  {
    match tipo
    case SemJustaCausa => Round(saldoSalario + totalFerias + decimoTerceiro + avisoPrevio + multaFGTS)
    case PedidoDemissao => Round(saldoSalario + totalFerias + decimoTerceiro)
    case JustaCausa => Round(saldoSalario + feriasVencidas + feriasDobro)
  }

  /** The line items for one cause of termination, each rounded where the source rounds it. */
  function Itens(tipo: TipoRescisao, b: Base): ResultadoRescisao
    requires b.meses13 <= 12
  {
    var sf := b.salarioFinal;
    var anosCompletos := b.mesesTotais / 12;
    var mesesRestantes := b.mesesTotais % 12;
    var feriasVencidas := FeriasVencidas(sf, b.periodosVencidos);
    var feriasDobro := FeriasDobro(sf, b.periodosEmDobro);
    var feriasProporcionais := FeriasProporcionais(tipo, sf, mesesRestantes);
    var totalFerias := Round(feriasVencidas + feriasDobro + feriasProporcionais);
    var saldoSalario := SaldoSalario(sf, b.diasTrabalhados);
    var decimoTerceiro := DecimoTerceiro(tipo, sf, b.meses13);
    var avisoPrevioDias := AvisoPrevioDias(tipo, anosCompletos);
    var avisoPrevio := AvisoPrevio(tipo, sf, avisoPrevioDias);
    var multaFGTS := MultaFGTS(tipo, b.fgtsTotal);
    ResultadoRescisao(
      saldoSalario, feriasVencidas, feriasDobro, feriasProporcionais, totalFerias, decimoTerceiro,
      avisoPrevio, avisoPrevioDias, b.fgtsTotal, multaFGTS,
      TotalGeral(tipo, saldoSalario, feriasVencidas, feriasDobro, totalFerias, decimoTerceiro, avisoPrevio, multaFGTS),
      b.mesesTotais, anosCompletos, mesesRestantes, b.diasTrabalhados, b.periodosVencidos, b.periodosEmDobro,
      sf, b.historicoAumentos)
  }

  /** `calcularRescisao` as a function: the line items of the case's own cause. */
  function Rescisao(dados: DadosRescisao): ResultadoRescisao
    requires DatasValidas(dados)
  {
    Itens(dados.tipoRescisao, BaseRescisao(dados))
  }

  /** `calcularRescisao`: the shared quantities first, then the line items of the cause. */
  method CalcularRescisao(dados: DadosRescisao) returns (r: ResultadoRescisao)
    requires DatasValidas(dados)
    ensures r == Rescisao(dados)
  {
    var salario, dataAdmissao, dataDemissao, tipoRescisao, saldoFGTS :=
      dados.salario, dados.dataAdmissao, dados.dataDemissao, dados.tipoRescisao, dados.saldoFGTS;
    var aumentos := dados.aumentos;
    var temAumentos := |aumentos| > 0;

    var salarioFinal := salario;
    if temAumentos {
      salarioFinal := CalcularSalarioVigente(salario, aumentos, dataDemissao);
    }

    var mesesTotais := DiffMeses(dataAdmissao, dataDemissao);
    var anosCompletos := mesesTotais / 12;
    var mesesRestantes := mesesTotais % 12;
    var diasTrabalhadosMesDemissao := DiasNoMes(dataDemissao);

    // 1. balance of salary
    var saldoSalario := SaldoSalario(salarioFinal, diasTrabalhadosMesDemissao);

    // 2. vacation: the computed counts unless overridden
    var periodosAuto := CalcularPeriodosFerias(dataAdmissao, dataDemissao);
    var periodosVencidos: int := periodosAuto.periodosVencidos;
    if dados.periodosVencidosManuais.Some? {
      periodosVencidos := dados.periodosVencidosManuais.value;
    }
    var periodosEmDobro: int := periodosAuto.periodosEmDobro;
    if dados.periodosEmDobroManuais.Some? {
      periodosEmDobro := dados.periodosEmDobroManuais.value;
    }
    var feriasVencidas := FeriasVencidas(salarioFinal, periodosVencidos);
    var feriasDobro := FeriasDobro(salarioFinal, periodosEmDobro);
    var feriasProporcionais := FeriasProporcionais(tipoRescisao, salarioFinal, mesesRestantes);
    var totalFerias := Round(feriasVencidas + feriasDobro + feriasProporcionais);

    // 3. proportional year-end bonus
    var meses13 := Meses13(dataAdmissao, dataDemissao);
    var decimoTerceiro := DecimoTerceiro(tipoRescisao, salarioFinal, meses13);

    // 4. notice in lieu
    var avisoPrevioDias := AvisoPrevioDias(tipoRescisao, anosCompletos);
    var avisoPrevio := AvisoPrevio(tipoRescisao, salarioFinal, avisoPrevioDias);

    // 5. severance fund
    var fgtsTotal: real;
    if saldoFGTS.Some? {
      fgtsTotal := Round(saldoFGTS.value);
    } else if temAumentos {
      fgtsTotal := CalcularFGTSComAumentos(salario, aumentos, dataAdmissao, dataDemissao);
    } else {
      fgtsTotal := FGTSSemAumentos(salario, mesesTotais);
    }

    // 6. 40% penalty on the fund, and the total due for this kind of termination
    var multaFGTS := MultaFGTS(tipoRescisao, fgtsTotal);
    var totalGeral := TotalGeral(tipoRescisao, saldoSalario, feriasVencidas, feriasDobro,
                                 totalFerias, decimoTerceiro, avisoPrevio, multaFGTS);

    var historicoAumentos: Option<seq<Registro>> := None;
    if temAumentos {
      var h := GerarHistoricoSalarios(salario, aumentos);
      historicoAumentos := Some(h);
    }

    assert BaseRescisao(dados) == Base(salarioFinal, mesesTotais, diasTrabalhadosMesDemissao, meses13,
                                       periodosVencidos, periodosEmDobro, fgtsTotal, historicoAumentos);
    r := ResultadoRescisao(
      saldoSalario, feriasVencidas, feriasDobro, feriasProporcionais, totalFerias, decimoTerceiro,
      avisoPrevio, avisoPrevioDias, fgtsTotal, multaFGTS, totalGeral, mesesTotais, anosCompletos,
      mesesRestantes, diasTrabalhadosMesDemissao, periodosVencidos, periodosEmDobro, salarioFinal,
      historicoAumentos);
  }

  // ---------------------------------------------------------------------------
  // Properties of the severance calculation
  // ---------------------------------------------------------------------------

  /** The items computed before the cause is consulted do not depend on it. */
  lemma BaseIndependeDoTipo(dados: DadosRescisao, t: TipoRescisao)
    requires DatasValidas(dados)
    ensures Rescisao(dados.(tipoRescisao := t)) == Itens(t, BaseRescisao(dados))
  {
    assert BaseRescisao(dados.(tipoRescisao := t)) == BaseRescisao(dados);
  }

  /** The month counts of the result: whole months of service split into
      completed years and remaining months, the remaining months being the
      proportional vacation months; the manual period counts replace the
      computed ones. */
  lemma RescisaoMesesEPeriodos(dados: DadosRescisao)
    requires DatasValidas(dados)
    ensures var r := Rescisao(dados);
            var auto := PeriodosFerias(dados.dataAdmissao, dados.dataDemissao);
            r.mesesTotais == DiffMeses(dados.dataAdmissao, dados.dataDemissao) &&
            r.anosCompletos == r.mesesTotais / 12 && r.mesesRestantes == auto.mesesProporcional &&
            r.periodosVencidos == (if dados.periodosVencidosManuais.Some? then dados.periodosVencidosManuais.value
                                   else auto.periodosVencidos) &&
            r.periodosEmDobro == (if dados.periodosEmDobroManuais.Some? then dados.periodosEmDobroManuais.value
                                  else auto.periodosEmDobro) &&
            r.diasTrabalhadosMesDemissao == dados.dataDemissao.day
  {
  }

  /** The salary used: the input salary when there are no raises; with raises,
      a cent amount, and one history entry per raise. */
  lemma RescisaoSalarioFinal(dados: DadosRescisao)
    requires DatasValidas(dados)
    ensures var r := Rescisao(dados);
            (|dados.aumentos| == 0 ==> r.salarioFinal == dados.salario && r.historicoAumentos == None) &&
            (|dados.aumentos| > 0 ==> r.salarioFinal == SalarioVigente(dados.salario, dados.aumentos, dados.dataDemissao) &&
                                      IsCents(r.salarioFinal) && r.historicoAumentos.Some? &&
                                      |r.historicoAumentos.value| == |dados.aumentos|)
  {
  }

  /** Every money item is a whole number of cents. */
  lemma ItensEmCentavos(t: TipoRescisao, b: Base)
    requires b.meses13 <= 12 && IsCents(b.fgtsTotal)
    ensures var r := Itens(t, b);
            IsCents(r.saldoSalario) && IsCents(r.feriasVencidas) && IsCents(r.feriasDobro) &&
            IsCents(r.feriasProporcionais) && IsCents(r.totalFerias) && IsCents(r.decimoTerceiro) &&
            IsCents(r.avisoPrevio) && IsCents(r.fgtsTotal) && IsCents(r.multaFGTS) && IsCents(r.totalGeral)
  {
  }

  /** Dismissal for cause forfeits proportional vacation, the year-end bonus,
      notice and the fund penalty; the total is the balance plus the earned vacation. */
  lemma ItensJustaCausa(b: Base)
    requires b.meses13 <= 12
    ensures var r := Itens(JustaCausa, b);
            r.feriasProporcionais == 0.0 && r.decimoTerceiro == 0.0 && r.avisoPrevio == 0.0 &&
            r.avisoPrevioDias == 0 && r.multaFGTS == 0.0 &&
            r.totalFerias == Round(r.feriasVencidas + r.feriasDobro) &&
            r.totalGeral == Round(r.saldoSalario + r.feriasVencidas + r.feriasDobro)
  {
  }

  /** A resignation pays no notice and no penalty. */
  lemma ItensPedidoDemissao(b: Base)
    requires b.meses13 <= 12
    ensures var r := Itens(PedidoDemissao, b);
            r.avisoPrevio == 0.0 && r.avisoPrevioDias == 0 && r.multaFGTS == 0.0 &&
            r.totalGeral == Round(r.saldoSalario + r.totalFerias + r.decimoTerceiro)
  {
  }

  /** Dismissal without cause: 30 days of notice plus 3 per completed year, at
      most 90, paid at the daily rate (so one to three salaries), and 40% of
      the fund as penalty; the total adds both to the resignation items. */
  lemma ItensSemJustaCausa(b: Base)
    requires b.meses13 <= 12
    ensures var r := Itens(SemJustaCausa, b);
            30 <= r.avisoPrevioDias <= 90 && r.avisoPrevioDias == DiasAvisoPrevio(r.anosCompletos) &&
            (r.salarioFinal >= 0.0 ==> Round(r.salarioFinal) <= r.avisoPrevio <= Round(3.0 * r.salarioFinal)) &&
            r.multaFGTS == Round(r.fgtsTotal * 0.4) &&
            r.totalGeral == Round(r.saldoSalario + r.totalFerias + r.decimoTerceiro + r.avisoPrevio + r.multaFGTS)
  {
  }

  /** Notice pay and the fund penalty are only ever non-zero without cause. */
  lemma AvisoEMultaSoSemJustaCausa(t: TipoRescisao, b: Base)
    requires b.meses13 <= 12
    ensures var r := Itens(t, b);
            (r.avisoPrevio != 0.0 || r.avisoPrevioDias != 0 || r.multaFGTS != 0.0) ==> t == SemJustaCausa
  {
  }

  /** Where the fund balance comes from: a known balance, rounded; with raises,
      the month-by-month walk; otherwise the estimate from the months of service. */
  lemma FonteDoFGTS(dados: DadosRescisao)
    requires DatasValidas(dados)
    ensures var r := Rescisao(dados);
            (dados.saldoFGTS.Some? ==> r.fgtsTotal == Round(dados.saldoFGTS.value)) &&
            (dados.saldoFGTS.None? && |dados.aumentos| > 0 ==>
               r.fgtsTotal == Round(Depositos(dados.salario, dados.aumentos, FirstOfMonth(dados.dataAdmissao),
                                              MesesAte(dados.dataAdmissao, dados.dataDemissao)))) &&
            (dados.saldoFGTS.None? && |dados.aumentos| == 0 ==>
               r.fgtsTotal == FGTSSemAumentos(dados.salario, r.mesesTotais))
  {
  }

  /** Inputs that cannot make any line item negative: a non-negative salary,
      fund balance and manual counts, and raises of non-negative magnitude. */
  predicate EntradasNaoNegativas(dados: DadosRescisao) {
    dados.salario >= 0.0 &&
    (forall i :: 0 <= i < |dados.aumentos| ==> dados.aumentos[i].valor >= 0.0) &&
    (dados.saldoFGTS.Some? ==> dados.saldoFGTS.value >= 0.0) &&
    (dados.periodosVencidosManuais.Some? ==> dados.periodosVencidosManuais.value >= 0) &&
    (dados.periodosEmDobroManuais.Some? ==> dados.periodosEmDobroManuais.value >= 0)
  }

  /** A shared part with nothing negative in it. */
  predicate BaseNaoNegativa(b: Base) {
    b.meses13 <= 12 && b.salarioFinal >= 0.0 && b.diasTrabalhados >= 0 &&
    b.periodosVencidos >= 0 && b.periodosEmDobro >= 0 && b.fgtsTotal >= 0.0 && IsCents(b.fgtsTotal)
  }

  /** The deposits of the month-by-month walk are never negative. */
  lemma {:induction false} DepositosNaoNegativos(salarioInicial: real, aumentos: seq<AumentoSalarial>, mes: Date, n: nat)
    requires Valid(mes) && mes.day == 1
    requires salarioInicial >= 0.0 && forall i :: 0 <= i < |aumentos| ==> aumentos[i].valor >= 0.0
    ensures Depositos(salarioInicial, aumentos, mes, n) >= 0.0
    decreases n
  {
    if n > 0 {
      SalarioVigenteMonotone(salarioInicial, aumentos, mes, mes);
      DepositosNaoNegativos(salarioInicial, aumentos, NextMonth(mes), n - 1);
    }
  }

  /** Non-negative inputs give a non-negative shared part. */
  lemma BaseDeEntradasNaoNegativas(dados: DadosRescisao)
    requires DatasValidas(dados) && EntradasNaoNegativas(dados)
    ensures BaseNaoNegativa(BaseRescisao(dados))
  {
    var b := BaseRescisao(dados);
    if |dados.aumentos| > 0 {
      SalarioVigenteMonotone(dados.salario, dados.aumentos, dados.dataDemissao, dados.dataDemissao);
      if dados.saldoFGTS.None? {
        DepositosNaoNegativos(dados.salario, dados.aumentos, FirstOfMonth(dados.dataAdmissao),
                              MesesAte(dados.dataAdmissao, dados.dataDemissao));
      }
    }
    if dados.periodosVencidosManuais.None? || dados.periodosEmDobroManuais.None? {
      var p := PeriodosFerias(dados.dataAdmissao, dados.dataDemissao);
      assert p.periodosVencidos >= 0 && p.periodosEmDobro >= 0;
    }
  }

  /** With a non-negative shared part every line item is non-negative. */
  lemma ItensNaoNegativos(t: TipoRescisao, b: Base)
    requires BaseNaoNegativa(b)
    ensures var r := Itens(t, b);
            r.saldoSalario >= 0.0 && r.feriasVencidas >= 0.0 && r.feriasDobro >= 0.0 &&
            r.feriasProporcionais >= 0.0 && r.totalFerias >= 0.0 && r.decimoTerceiro >= 0.0 &&
            r.avisoPrevio >= 0.0 && r.fgtsTotal >= 0.0 && r.multaFGTS >= 0.0 && r.totalGeral >= 0.0
  {
  }

  /** Rounding the earned vacation alone never exceeds rounding all vacation plus the bonus. */
  lemma TotalGeralPorTipo(saldo: real, vencidas: real, dobro: real, proporcionais: real, decimo: real)
    requires IsCents(vencidas) && IsCents(dobro)
    requires proporcionais >= 0.0 && decimo >= 0.0
    ensures Round(saldo + vencidas + dobro) <= Round(saldo + Round(vencidas + dobro + proporcionais) + decimo)
  {
    var ferias := Round(vencidas + dobro + proporcionais);
    CentsAdd(vencidas, dobro);
    RoundCents(vencidas + dobro);
    RoundMonotone(vencidas + dobro, vencidas + dobro + proporcionais);
    RoundMonotone(saldo + vencidas + dobro, saldo + ferias + decimo);
  }

  /** Adding non-negative amounts never lowers a rounded total. */
  lemma AcrescimoNaoReduz(x: real, aviso: real, multa: real)
    requires aviso >= 0.0 && multa >= 0.0
    ensures Round(x) <= Round(x + aviso + multa)
  {
    RoundMonotone(x, x + aviso + multa);
  }

  /** The total for cause (balance plus earned vacation) is at most a total
      that adds proportional vacation and the bonus to the same items. */
  lemma TotalJustaCausaMenor(j: ResultadoRescisao, p: ResultadoRescisao)
    requires j.totalGeral == Round(p.saldoSalario + p.feriasVencidas + p.feriasDobro)
    requires p.totalGeral == Round(p.saldoSalario + p.totalFerias + p.decimoTerceiro)
    requires p.totalFerias == Round(p.feriasVencidas + p.feriasDobro + p.feriasProporcionais)
    requires IsCents(p.feriasVencidas) && IsCents(p.feriasDobro)
    requires p.feriasProporcionais >= 0.0 && p.decimoTerceiro >= 0.0
    ensures j.totalGeral <= p.totalGeral
  {
    TotalGeralPorTipo(p.saldoSalario, p.feriasVencidas, p.feriasDobro, p.feriasProporcionais, p.decimoTerceiro);
  }

  /** From the same shared part, dismissal for cause never pays more than a resignation. */
  lemma JustaCausaAtePedido(b: Base)
    requires BaseNaoNegativa(b)
    ensures Itens(JustaCausa, b).totalGeral <= Itens(PedidoDemissao, b).totalGeral
  {
    var j, p := Itens(JustaCausa, b), Itens(PedidoDemissao, b);
    assert j.saldoSalario == p.saldoSalario && j.feriasVencidas == p.feriasVencidas && j.feriasDobro == p.feriasDobro;
    assert j.totalGeral == Round(p.saldoSalario + p.feriasVencidas + p.feriasDobro);
    assert p.totalGeral == Round(p.saldoSalario + p.totalFerias + p.decimoTerceiro);
    assert p.totalFerias == Round(p.feriasVencidas + p.feriasDobro + p.feriasProporcionais);
    assert p.feriasProporcionais >= 0.0 && p.decimoTerceiro >= 0.0;
    TotalJustaCausaMenor(j, p);
  }

  /** From the same shared part, a resignation never pays more than a dismissal without cause. */
  lemma PedidoAteSemJustaCausa(b: Base)
    requires BaseNaoNegativa(b)
    ensures Itens(PedidoDemissao, b).totalGeral <= Itens(SemJustaCausa, b).totalGeral
  {
    var p, s := Itens(PedidoDemissao, b), Itens(SemJustaCausa, b);
    assert p.saldoSalario == s.saldoSalario && p.totalFerias == s.totalFerias && p.decimoTerceiro == s.decimoTerceiro;
    assert p.totalGeral == Round(s.saldoSalario + s.totalFerias + s.decimoTerceiro);
    assert s.totalGeral == Round(s.saldoSalario + s.totalFerias + s.decimoTerceiro + s.avisoPrevio + s.multaFGTS);
    ItensNaoNegativos(SemJustaCausa, b);
    AcrescimoNaoReduz(s.saldoSalario + s.totalFerias + s.decimoTerceiro, s.avisoPrevio, s.multaFGTS);
  }

  /** For the same case with non-negative inputs, dismissal for cause never pays
      more than a resignation, and a resignation never more than a dismissal without cause. */
  lemma TotaisPorTipo(dados: DadosRescisao)
    requires DatasValidas(dados) && EntradasNaoNegativas(dados)
    ensures Rescisao(dados.(tipoRescisao := JustaCausa)).totalGeral
         <= Rescisao(dados.(tipoRescisao := PedidoDemissao)).totalGeral
         <= Rescisao(dados.(tipoRescisao := SemJustaCausa)).totalGeral
  {
    BaseIndependeDoTipo(dados, JustaCausa);
    BaseIndependeDoTipo(dados, PedidoDemissao);
    BaseIndependeDoTipo(dados, SemJustaCausa);
    BaseDeEntradasNaoNegativas(dados);
    JustaCausaAtePedido(BaseRescisao(dados));
    PedidoAteSemJustaCausa(BaseRescisao(dados));
  }

  // ---------------------------------------------------------------------------
  // Worked cases
  // ---------------------------------------------------------------------------

  /** The case of a three-year contract: a salary of 3000.00 from 10 January
      2020 to 10 January 2023, with no raises, balance or manual counts. */
  function Caso(tipo: TipoRescisao, aumentos: seq<AumentoSalarial>): DadosRescisao {
    DadosRescisao(3000.0, Date(2020, 1, 10), Date(2023, 1, 10), tipo, None, None, None, aumentos, None)
  }

  /** The shared part of that case: 36 months of service, 10 days in the last
      month, no bonus months in the termination year, and since the first
      year's deadline (10 January 2022) has passed, one period doubled and two
      pending; the fund is 8% of 3000.00 for 36 months. */
  lemma CasoBase()
    ensures BaseRescisao(Caso(SemJustaCausa, [])) == Base(3000.0, 36, 10, 0, 2, 1, 8640.0, None)
  {
    var adm, dem := Date(2020, 1, 10), Date(2023, 1, 10);
    assert DiffMeses(adm, dem) == 36;
    assert EmDobro(adm, dem, 0) && !EmDobro(adm, dem, 1) && !EmDobro(adm, dem, 2);
    assert ContarEmDobro(adm, dem, 3) == 1;
    assert Meses13(adm, dem) == 0 by {
      assert DiffMeses(Date(2023, 1, 1), dem) == 0;
    }
    CentsOfInt(8640); RoundCents(8640.0);
  }

  /** The line items of that case dismissed without cause: three years give
      39 days of notice, and the total is 24356.00. */
  lemma CenarioSemJustaCausa()
    ensures var r := Rescisao(Caso(SemJustaCausa, []));
            r.mesesTotais == 36 && r.anosCompletos == 3 && r.mesesRestantes == 0 &&
            r.diasTrabalhadosMesDemissao == 10 && r.avisoPrevioDias == 39 &&
            r.periodosVencidos == 2 && r.periodosEmDobro == 1 &&
            r.saldoSalario == 1000.0 && r.feriasVencidas == 8000.0 && r.feriasDobro == 8000.0 &&
            r.feriasProporcionais == 0.0 && r.totalFerias == 16000.0 && r.decimoTerceiro == 0.0 &&
            r.avisoPrevio == 3900.0 && r.fgtsTotal == 8640.0 && r.multaFGTS == 3456.0 &&
            r.totalGeral == 24356.0
  {
    CasoBase();
    CentsOfInt(1000); RoundCents(1000.0);
    CentsOfInt(8000); RoundCents(8000.0);
    CentsOfInt(16000); RoundCents(16000.0);
    CentsOfInt(3900); RoundCents(3900.0);
    CentsOfInt(3456); RoundCents(3456.0);
    CentsOfInt(24356); RoundCents(24356.0);
  }

  /** The month-by-month walk and the closed-form estimate disagree. With
      raises that all take effect after the termination, the salary used is
      the starting salary, as without raises; but the walk deposits 8% of it
      for every calendar month from admission through termination inclusive,
      one month more than the months of service that the estimate without
      raises uses (for 10 January 2020 to 10 January 2023: 37 against 36). */
  lemma FGTSContagemDeMesesDiverge(dados: DadosRescisao)
    requires DatasValidas(dados) && dados.saldoFGTS.None? && |dados.aumentos| > 0
    requires forall i :: 0 <= i < |dados.aumentos| ==> Before(dados.dataDemissao, dados.aumentos[i].data)
    requires IsCents(dados.salario)
    requires dados.dataAdmissao.day == dados.dataDemissao.day && AtOrBefore(dados.dataAdmissao, dados.dataDemissao)
    ensures var r, semAumentos := Rescisao(dados), Rescisao(dados.(aumentos := []));
            r.salarioFinal == dados.salario && semAumentos.salarioFinal == dados.salario &&
            r.mesesTotais == semAumentos.mesesTotais &&
            semAumentos.fgtsTotal == FGTSSemAumentos(dados.salario, r.mesesTotais) &&
            r.fgtsTotal == FGTSSemAumentos(dados.salario, r.mesesTotais + 1)
  {
    var s, adm, dem := dados.salario, dados.dataAdmissao, dados.dataDemissao;
    var semAumentos := dados.(aumentos := []);
    RoundCents(s);
    SalarioVigenteSemAumentos(s, dados.aumentos, dem);
    RescisaoSalarioFinal(dados);
    RescisaoSalarioFinal(semAumentos);
    RescisaoMesesEPeriodos(dados);
    RescisaoMesesEPeriodos(semAumentos);
    FonteDoFGTS(semAumentos);
    forall i | 0 <= i < |dados.aumentos| ensures Before(FirstOfMonth(dem), dados.aumentos[i].data) {
    }
    FGTSSemAumentoEmVigor(s, dados.aumentos, adm, dem);
    assert MesesAte(adm, dem) == DiffMeses(adm, dem) + 1;
    FonteDoFGTS(dados);
  }

  /** In general the walk counts every calendar month it touches, between zero
      and two more than the months of service `diffMeses` reports: exactly one
      more when admission and termination share the day of month. */
  lemma ContagensDeMeses(admissao: Date, demissao: Date)
    requires Valid(admissao) && Valid(demissao) && AtOrBefore(admissao, demissao)
    ensures DiffMeses(admissao, demissao) <= MesesAte(admissao, demissao) <= DiffMeses(admissao, demissao) + 2
    ensures admissao.day == demissao.day ==> MesesAte(admissao, demissao) == DiffMeses(admissao, demissao) + 1
  {
  }

  /** Both extremes occur: 25 January to 5 February 2020 is no month of service
      but two months of deposits; 1 to 20 January 2020 is one month of each. */
  lemma ContagensExtremas()
    ensures DiffMeses(Date(2020, 1, 25), Date(2020, 2, 5)) == 0 && MesesAte(Date(2020, 1, 25), Date(2020, 2, 5)) == 2
    ensures DiffMeses(Date(2020, 1, 1), Date(2020, 1, 20)) == 1 && MesesAte(Date(2020, 1, 1), Date(2020, 1, 20)) == 1
  {
  }
}
