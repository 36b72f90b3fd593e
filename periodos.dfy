/** Month arithmetic and the vacation-period classifier of calculadora.ts. */
module Periodos {
  import opened Calendar

  /** The number of calendar months from the month of `inicio` to the month of `fim`,
      ignoring the day of month. */
  function CalendarMonths(inicio: Date, fim: Date): int {
    MonthIndex(fim) - MonthIndex(inicio)
  }

  /** `diffMeses`: whole months between two dates, where a remainder of 15 days
      or more counts as a month. A negative day difference borrows the length
      of the month before `fim`; the result is never negative. */
  function DiffMeses(inicio: Date, fim: Date): (total: nat)
    requires Valid(inicio) && Valid(fim)
    ensures total >= CalendarMonths(inicio, fim) - 1
    ensures total > 0 ==> total <= CalendarMonths(inicio, fim) + 1
    ensures total > 0 && total == CalendarMonths(inicio, fim) + 1 ==> fim.day >= inicio.day + 15
    ensures total < CalendarMonths(inicio, fim) ==> fim.day < inicio.day
    ensures fim.day == inicio.day ==>
              total == if CalendarMonths(inicio, fim) < 0 then 0 else CalendarMonths(inicio, fim)
    // 15 or more extra days count as one more month
    ensures CalendarMonths(inicio, fim) >= 0 && fim.day - inicio.day >= 15 ==> total == CalendarMonths(inicio, fim) + 1
    // fewer than 15 extra days are dropped
    ensures CalendarMonths(inicio, fim) >= 0 && 0 <= fim.day - inicio.day < 15 ==> total == CalendarMonths(inicio, fim)
    // a negative day difference borrows the previous month: the partial month
    // still counts when it reaches 15 days, otherwise one month is taken back
    ensures CalendarMonths(inicio, fim) >= 1 && fim.day < inicio.day ==>
              total == if DaysInPreviousMonth(fim) + fim.day - inicio.day >= 15 then CalendarMonths(inicio, fim)
                       else CalendarMonths(inicio, fim) - 1
  {
    var anos := fim.year - inicio.year;
    var meses := fim.month - inicio.month;
    var dias := fim.day - inicio.day;
    var total := anos * 12 + meses;
    var ajustado :=
      if dias >= 15 then total + 1
      else if dias < 0 then (if DaysInPreviousMonth(fim) + dias >= 15 then total else total - 1)
      else total;
    if ajustado < 0 then 0 else ajustado
  }

  /** A later end date never yields fewer months. */
  lemma DiffMesesMonotone(inicio: Date, fim1: Date, fim2: Date)
    requires Valid(inicio) && Valid(fim1) && Valid(fim2)
    requires AtOrBefore(fim1, fim2)
    ensures DiffMeses(inicio, fim1) <= DiffMeses(inicio, fim2)
  {
    var c1, c2 := CalendarMonths(inicio, fim1), CalendarMonths(inicio, fim2);
    if MonthIndex(fim1) == MonthIndex(fim2) {
      SameMonthSamePrevious(fim1, fim2);
    } else if c2 == c1 + 1 {
      PreviousOfNextMonth(fim1, fim2);
    }
  }

  /** On the n-th anniversary (n >= 0) exactly 12n months have elapsed, also for
      an admission on 29 February whose anniversary rolls over to 1 March. */
  lemma DiffMesesAnniversary(d: Date, n: nat)
    requires Valid(d)
    ensures DiffMeses(d, AddYears(d, n)) == 12 * n
  {
  }

  /** Result of `calcularPeriodosFerias`. */
  datatype Periodos = Periodos(periodosVencidos: nat, periodosEmDobro: nat, mesesProporcional: nat)

  /** The end of the concessive period of the i-th service year (counted from 0):
      `setFullYear` applied twice, first i + 1 years, then one more. */
  function LimiteConcessivo(admissao: Date, i: nat): (r: Date)
    requires Valid(admissao)
    ensures Valid(r)
  {
    AddYears(AddYears(admissao, i + 1), 1)
  }

  /** The i-th service year is paid in double when the termination falls
      strictly after the end of its concessive period. */
  predicate EmDobro(admissao: Date, demissao: Date, i: nat)
    requires Valid(admissao)
  {
    Before(LimiteConcessivo(admissao, i), demissao)
  }

  /** How many of the first n service years are paid in double. */
  function ContarEmDobro(admissao: Date, demissao: Date, n: nat): (c: nat)
    requires Valid(admissao)
    ensures c <= n
  {
    if n == 0 then 0
    else ContarEmDobro(admissao, demissao, n - 1) + (if EmDobro(admissao, demissao, n - 1) then 1 else 0)
  }

  /** What `calcularPeriodosFerias` returns: every completed service year is either
      pending or doubled, and the months beyond the completed years are proportional. */
  function PeriodosFerias(admissao: Date, demissao: Date): (p: Periodos)
    requires Valid(admissao) && Valid(demissao)
    ensures p.periodosVencidos + p.periodosEmDobro == DiffMeses(admissao, demissao) / 12
    ensures p.mesesProporcional == DiffMeses(admissao, demissao) % 12
    ensures p.mesesProporcional < 12
  {
    var mesesTotais := DiffMeses(admissao, demissao);
    var anosCompletos := mesesTotais / 12;
    var dobro := ContarEmDobro(admissao, demissao, anosCompletos);
    Periodos(anosCompletos - dobro, dobro, mesesTotais % 12)
  }

  /** `calcularPeriodosFerias`: counts pending and doubled years in a loop. */
  method CalcularPeriodosFerias(admissao: Date, demissao: Date) returns (p: Periodos)
    requires Valid(admissao) && Valid(demissao)
    ensures p == PeriodosFerias(admissao, demissao)
  {
    var periodosVencidos := 0;
    var periodosEmDobro := 0;
    var mesesTotais := DiffMeses(admissao, demissao);
    var anosCompletos := mesesTotais / 12;
    var mesesProporcional := mesesTotais % 12;
    for i := 0 to anosCompletos
      invariant periodosEmDobro == ContarEmDobro(admissao, demissao, i)
      invariant periodosVencidos + periodosEmDobro == i
    {
      var fimAquisitivo := AddYears(admissao, i + 1);
      var limiteConcessivo := AddYears(fimAquisitivo, 1);
      if Before(limiteConcessivo, demissao) {
        periodosEmDobro := periodosEmDobro + 1;
      } else {
        periodosVencidos := periodosVencidos + 1;
      }
    }
    p := Periodos(periodosVencidos, periodosEmDobro, mesesProporcional);
  }

  /** The deadline of year i lies 12(i + 2) months after admission, or one month
      later when a 29 February admission rolled over to 1 March on the way. */
  lemma LimiteConcessivoShape(admissao: Date, i: nat)
    requires Valid(admissao)
    ensures var x := LimiteConcessivo(admissao, i);
            (MonthIndex(x) == MonthIndex(admissao) + 12 * (i + 2) && x.day == admissao.day) ||
            (MonthIndex(x) == MonthIndex(admissao) + 12 * (i + 2) + 1 && x.day == 1)
  {
    var f := AddYears(admissao, i + 1);
    AddYearsShape(admissao, i + 1);
    AddYearsShape(f, 1);
  }

  /** Except for a 29 February admission, the deadline of year i is the
      (i + 2)-th anniversary of the admission. */
  lemma LimiteConcessivoAnniversary(admissao: Date, i: nat)
    requires Valid(admissao) && !(admissao.month == 2 && admissao.day == 29)
    ensures LimiteConcessivo(admissao, i) == AddYears(admissao, i + 2)
  {
  }

  /** Every completed year except the last two is paid in double. */
  lemma {:induction false} OlderYearsDoubled(admissao: Date, demissao: Date, i: nat)
    requires Valid(admissao) && Valid(demissao)
    requires i + 3 <= DiffMeses(admissao, demissao) / 12
    ensures EmDobro(admissao, demissao, i)
  {
    LimiteConcessivoShape(admissao, i);
  }

  /** The last completed year is always still pending. */
  lemma {:induction false} LastYearPending(admissao: Date, demissao: Date)
    requires Valid(admissao) && Valid(demissao)
    requires DiffMeses(admissao, demissao) / 12 >= 1
    ensures !EmDobro(admissao, demissao, DiffMeses(admissao, demissao) / 12 - 1)
  {
    LimiteConcessivoShape(admissao, DiffMeses(admissao, demissao) / 12 - 1);
  }

  /** With every year below k doubled, the first k years count k doubled. */
  lemma {:induction false} ContarEmDobroAll(admissao: Date, demissao: Date, k: nat)
    requires Valid(admissao) && Valid(demissao)
    requires k + 2 <= DiffMeses(admissao, demissao) / 12
    ensures ContarEmDobro(admissao, demissao, k) == k
  {
    if k > 0 {
      ContarEmDobroAll(admissao, demissao, k - 1);
      OlderYearsDoubled(admissao, demissao, k - 1);
    }
  }

  /** At any termination at most two vacation periods are pending: once a
      year is complete, the most recent one or two years are pending and all
      older ones are doubled. */
  lemma {:induction false} PendingAtMostTwo(admissao: Date, demissao: Date)
    requires Valid(admissao) && Valid(demissao)
    ensures var p := PeriodosFerias(admissao, demissao);
            var anos := DiffMeses(admissao, demissao) / 12;
            (anos == 0 ==> p.periodosVencidos == 0 && p.periodosEmDobro == 0) &&
            (anos >= 1 ==> 1 <= p.periodosVencidos <= 2)
  {
    var anos := DiffMeses(admissao, demissao) / 12;
    if anos >= 1 {
      LastYearPending(admissao, demissao);
      if anos >= 2 {
        ContarEmDobroAll(admissao, demissao, anos - 2);
        assert ContarEmDobro(admissao, demissao, anos - 1) >= anos - 2;
      }
    }
  }
}
