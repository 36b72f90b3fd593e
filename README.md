# CLT termination calculator: verified model

A Dafny model of the calculation engine of a Brazilian labour-termination
calculator (CLT rescisão). The model covers three parts of the engine.

- **The severance engine** (`src/lib/calculadora.ts`):
  - the salary in force after dated raises;
  - the raise history;
  - the month-by-month FGTS (severance fund) accrual;
  - `diffMeses`, the month count with its 15-day rule;
  - the split of completed years into pending and doubled vacation periods;
  - every line item of `calcularRescisao` for the three termination causes.
- **The tax and benefit tables** (`src/lib/tabelas.ts`):
  - the progressive INSS (social security) walk;
  - the IRRF (income tax) bracket lookup;
  - the unemployment-insurance instalment (seguro-desemprego);
  - the 2024 default tables.
- **CNPJ handling** (`src/lib/userConfig.ts`): the modulo-11 check-digit validation of a company registration number, and its progressive mask.

Money is modelled as `real`, an idealisation of IEEE doubles. `Money.Round` is
`Math.round(x * 100) / 100`: round to cents, halves upward. Dates are
calendar triples (year, month, day) in `Calendar`. `AddYears` reproduces
`setFullYear`, rolling 29 February over to 1 March in a non-leap year.

Every loop of the source is a method proved equal to a specification function:

| method | source operation |
|---|---|
| `Salarios.CalcularSalarioVigente` | `calcularSalarioVigente` |
| `Salarios.GerarHistoricoSalarios` | `gerarHistoricoSalarios` |
| `Rescisao.CalcularFGTSComAumentos` | `calcularFGTSComAumentos` |
| `Periodos.CalcularPeriodosFerias` | `calcularPeriodosFerias` |
| `Rescisao.CalcularRescisao` | `calcularRescisao` |
| `Tabelas.CalcularINSS` | `calcularINSS` |
| `Tabelas.CalcularIRRF` | `calcularIRRF` |
| `Tabelas.CalcularSeguroDesemprego` | `calcularSeguroDesemprego` |
| `UserConfig.Calc` | the inner `calc` of `validarCNPJ` |
| `UserConfig.ValidarCNPJ` | `validarCNPJ` |

The properties of each operation are then proved about its specification function.

The source's constant tables are Dafny constants with the same values. They are checked by the example and ceiling lemmas in the table below.

- `Tabelas.TabelaINSSPadrao`: `src/lib/tabelas.ts:15-20`.
- `Tabelas.TabelaIRRFPadrao`: `src/lib/tabelas.ts:22-28`.
- `Tabelas.DeducaoDependente`: `src/lib/tabelas.ts:30`.
- `Tabelas.TabelaSeguroDesemprego`: `src/lib/tabelas.ts:39-43`.
- `Tabelas.TetoSeguroDesemprego`: `src/lib/tabelas.ts:45`.
- `UserConfig.W1` and `UserConfig.W2`, the CNPJ weights: `src/lib/userConfig.ts:73-74`.

`Rescisao` is split into two parts:

- `Rescisao.BaseRescisao`: everything that does not depend on the termination cause, namely the final salary, month counts, vacation periods, FGTS balance and raise history;
- `Rescisao.Itens`: the line items for a given cause.

`Rescisao.BaseIndependeDoTipo` proves that changing the cause changes only `Itens`.

Two properties of the source's formulas are modelled as written and shown by lemmas:

- **FGTS month counts disagree.** With raises, the month-by-month walk counts every calendar month from the admission month through the termination month inclusive. Without raises, the fund is 8% of the salary times `diffMeses`. The walk's month count is between 0 and 2 more than `diffMeses` (`Rescisao.ContagensDeMeses`), and both extremes occur (`Rescisao.ContagensExtremas`). When admission and termination fall on the same day of the month and no raise is yet in force, the two funds differ by exactly one month's deposit: `Rescisao.FGTSContagemDeMesesDiverge`.
- **Two rounding disciplines.** `calcularSalarioVigente` rounds once at the end, while `gerarHistoricoSalarios` rounds after every raise. Both agree for whole-cent fixed raises (`Salarios.HistoricoConcordaComVigente`) and can differ for percentage raises (`Salarios.ArredondamentoDuploDiverge`, with 0.6% raises whose products lie far from any half-cent tie).

## Model

| member | source | states |
|---|---|---|
| Money.Round | src/lib/calculadora.ts:282-284 | the result is a whole number of cents within half a cent of the input, and non-negative for a non-negative input |
| Money.RoundCents | src/lib/calculadora.ts:282-284 | rounding leaves a cent amount unchanged |
| Money.RoundIdempotent | src/lib/calculadora.ts:282-284 | rounding twice equals rounding once |
| Money.RoundMonotone | src/lib/calculadora.ts:282-284 | rounding preserves the order of amounts |
| Calendar.DaysInMonth | src/lib/calculadora.ts:120 | a month has 28 to 31 days; February has 29 exactly in leap years |
| Calendar.BeforeIsLexicographic | src/lib/calculadora.ts:155 | the date comparison is the lexicographic order of (year, month, day) on valid dates |
| Calendar.AddYears | src/lib/calculadora.ts:149-153 | `setFullYear` yields a valid date in the target year |
| Calendar.AddYearsShape | src/lib/calculadora.ts:149-153 | adding years keeps month and day, except that 29 February rolls over to 1 March |
| Calendar.FirstOfMonth | src/lib/calculadora.ts:98-99 | the first day of the same month |
| Calendar.NextMonth | src/lib/calculadora.ts:104 | `setMonth(m + 1)` on a first day moves to the first day of the following month |
| Calendar.DaysInPreviousMonth | src/lib/calculadora.ts:120 | `new Date(y, m, 0).getDate()` is 28 to 31 |
| Calendar.PreviousOfNextMonth | src/lib/calculadora.ts:120 | the month before the following month has the length of this month |
| Salarios.OrdenarPorData | src/lib/calculadora.ts:55 | the sort returns a permutation of the raises |
| Salarios.OrdenarPorDataOrdena | src/lib/calculadora.ts:55 | the sorted raises are in ascending date order |
| Salarios.OrdenarPorDataEstavel | src/lib/calculadora.ts:55 | the sort is stable: raises on the same day keep their input order |
| Salarios.SalarioVigente | src/lib/calculadora.ts:50-68 | the salary in force is a whole number of cents |
| Salarios.CalcularSalarioVigente | src/lib/calculadora.ts:50-68 | the loop applies, in date order, exactly the raises dated on or before the reference date (percent multiplies by 1 + v/100, fixed adds v) and rounds once |
| Salarios.SalarioVigenteSemAumentos | src/lib/calculadora.ts:57-67 | with no raise in force by the reference date the result is the starting salary rounded |
| Salarios.SalarioVigenteMonotone | src/lib/calculadora.ts:50-68 | with non-negative raises the salary in force never decreases as the reference date advances |
| Salarios.AplicarAteTodos | src/lib/calculadora.ts:57-66 | when every raise is on or before the reference date, all of them are applied |
| Salarios.Aplicar | src/lib/calculadora.ts:60-64 | one raise: a percentage multiplies by 1 + v/100, a fixed raise adds v |
| Salarios.AplicarAte | src/lib/calculadora.ts:57-66 | the unrounded walk over sorted raises, applying those dated on or before the reference date |
| Salarios.Historico | src/lib/calculadora.ts:78-86 | one snapshot per raise |
| Salarios.HistoricoPasso | src/lib/calculadora.ts:78-86 | each step rounds the raised salary and carries it into the rest of the walk |
| Salarios.GerarHistoricoSalarios | src/lib/calculadora.ts:71-88 | the loop pushes the snapshots of the sorted raises, rounding after each step |
| Salarios.HistoricoSalarios | src/lib/calculadora.ts:71-88 | the trace of the sorted raises from the starting salary, specified by `HistoricoSalariosCorreto` |
| Salarios.HistoricoEntradas | src/lib/calculadora.ts:78-86 | snapshot k copies raise k and holds the rounded result of applying it to snapshot k - 1 |
| Salarios.HistoricoSalariosCorreto | src/lib/calculadora.ts:71-88 | exactly one snapshot per raise, in ascending date order, each in cents and feeding the next |
| Salarios.HistoricoExato | src/lib/calculadora.ts:78-86 | with whole-cent fixed raises the per-step rounding loses nothing |
| Salarios.HistoricoConcordaComVigente | src/lib/calculadora.ts:50-88 | for whole-cent fixed raises all in force, the last snapshot equals the salary in force |
| Salarios.ArredondamentoDuploDiverge | src/lib/calculadora.ts:61-84 | two 0.6% raises on 1.00 give 1.01 in force but 1.01 then 1.02 in the history |
| Salarios.CenarioAumentoPercentual | src/lib/calculadora.ts:50-88 | a 10% raise on 2000.00 gives 2200.00 both ways |
| Periodos.DiffMeses | src/lib/calculadora.ts:109-130 | never negative; 15 or more extra days add a month, 0 to 14 extra days are dropped; a negative day difference keeps the calendar-month count when the previous month's length plus the difference reaches 15, and takes one month back otherwise; never more than one month from the calendar-month difference |
| Periodos.DiffMesesMonotone | src/lib/calculadora.ts:109-130 | a later end date never gives fewer months |
| Periodos.DiffMesesAnniversary | src/lib/calculadora.ts:109-130 | n years after a date are exactly 12n months |
| Periodos.LimiteConcessivo | src/lib/calculadora.ts:149-153 | the concession deadline of year i is a valid date |
| Periodos.LimiteConcessivoShape | src/lib/calculadora.ts:149-153 | the deadline of year i is i + 2 years after admission, or the 1 March after it for a 29 February admission |
| Periodos.LimiteConcessivoAnniversary | src/lib/calculadora.ts:149-153 | outside 29 February the deadline is the (i + 2)th anniversary |
| Periodos.ContarEmDobro | src/lib/calculadora.ts:155-159 | at most one doubled period per year counted |
| Periodos.PeriodosFerias | src/lib/calculadora.ts:136-163 | pending plus doubled equals the completed years `diffMeses / 12`, and the proportional months are `diffMeses % 12` |
| Periodos.CalcularPeriodosFerias | src/lib/calculadora.ts:136-163 | the loop counts a year as doubled exactly when termination is after its deadline |
| Periodos.OlderYearsDoubled | src/lib/calculadora.ts:148-160 | every year but the last two is doubled |
| Periodos.LastYearPending | src/lib/calculadora.ts:148-160 | the last completed year is always pending |
| Periodos.ContarEmDobroAll | src/lib/calculadora.ts:148-160 | the first k years are all doubled when k + 2 years are complete |
| Periodos.PendingAtMostTwo | src/lib/calculadora.ts:136-163 | no year complete gives no period; otherwise one or two are pending |
| Rescisao.CalcularFGTSComAumentos | src/lib/calculadora.ts:91-107 | the loop sums 8% of the salary in force on the first of each month from the admission month through the termination month, and rounds once |
| Rescisao.MesesAte | src/lib/calculadora.ts:98-105 | the number of first-of-month dates the walk visits, inclusive of both ends |
| Rescisao.Depositos | src/lib/calculadora.ts:101-105 | the unrounded sum of 8% of the salary in force on each visited first of month |
| Rescisao.FGTSComAumentos | src/lib/calculadora.ts:91-107 | the walk's sum rounded once to cents |
| Rescisao.DepositosConstantes | src/lib/calculadora.ts:98-105 | with no raise in force, n monthly deposits are n times 8% of the rounded salary |
| Rescisao.FGTSDeDepositosIguais | src/lib/calculadora.ts:97-106 | equal deposits make the walk the closed-form 8% times the month count |
| Rescisao.FGTSSemAumentoEmVigor | src/lib/calculadora.ts:91-107 | with every raise after the termination month the walk equals the closed form over the inclusive month count |
| Rescisao.DepositosNaoNegativos | src/lib/calculadora.ts:101-105 | deposits are never negative for non-negative inputs |
| Rescisao.DiasAvisoPrevio | src/lib/calculadora.ts:226 | `min(30 + 3 * years, 90)` lies in [30, 90] |
| Rescisao.DiasNoMes | src/lib/calculadora.ts:132-134 | the days worked in the termination month are its day of month |
| Rescisao.SalarioFinal | src/lib/calculadora.ts:170-173 | the salary in force at termination when there are raises, the input salary otherwise |
| Rescisao.PeriodosVencidos | src/lib/calculadora.ts:186 | the manual pending count when given, the computed one otherwise |
| Rescisao.PeriodosEmDobro | src/lib/calculadora.ts:187 | the manual doubled count when given, the computed one otherwise |
| Rescisao.Meses13 | src/lib/calculadora.ts:216-219 | the thirteenth-salary months are at most 12 |
| Rescisao.FGTSTotal | src/lib/calculadora.ts:231-238 | the fund balance is a whole number of cents |
| Rescisao.FGTSSemAumentos | src/lib/calculadora.ts:237 | the closed-form balance is in cents and non-negative for a non-negative salary |
| Rescisao.BaseRescisao | src/lib/calculadora.ts:166-189 | the cause-independent part: diffMeses, manual period counts replacing the computed ones, the input salary when there are no raises, cents otherwise |
| Rescisao.ValorFeriasUmPeriodo | src/lib/calculadora.ts:191 | one vacation period is at least one salary |
| Rescisao.SaldoSalario | src/lib/calculadora.ts:181 | the balance of salary is in cents and non-negative |
| Rescisao.FeriasVencidas | src/lib/calculadora.ts:198-202 | pending vacation pay is in cents and non-negative |
| Rescisao.FeriasDobro | src/lib/calculadora.ts:199-203 | doubled vacation pay is in cents and non-negative |
| Rescisao.FeriasProporcionais | src/lib/calculadora.ts:197-209 | zero for just cause or no remaining months, in cents, non-negative |
| Rescisao.DecimoTerceiro | src/lib/calculadora.ts:214-220 | zero for just cause; otherwise in cents, between 0 and one rounded salary |
| Rescisao.AvisoPrevioDias | src/lib/calculadora.ts:223-228 | 30 to 90 days without just cause, 0 otherwise |
| Rescisao.AvisoPrevio | src/lib/calculadora.ts:223-228 | zero unless without just cause; there, between one and three rounded salaries |
| Rescisao.MultaFGTS | src/lib/calculadora.ts:240-244 | zero unless without just cause, in cents, non-negative |
| Rescisao.TotalGeral | src/lib/calculadora.ts:246-254 | the grand total by cause: five items without just cause, three for resignation, saldo plus pending and doubled vacation for just cause (proved per cause by the `Itens*` lemmas) |
| Rescisao.Itens | src/lib/calculadora.ts:180-254 | the cause-dependent line items over a shared part, as specified by the lemmas below |
| Rescisao.Rescisao | src/lib/calculadora.ts:165-280 | the whole result: `Itens` of the cause over `BaseRescisao` |
| Rescisao.CalcularRescisao | src/lib/calculadora.ts:165-280 | the method computes exactly the specified result record |
| Rescisao.BaseIndependeDoTipo | src/lib/calculadora.ts:165-280 | changing the cause changes only the cause-dependent line items |
| Rescisao.RescisaoMesesEPeriodos | src/lib/calculadora.ts:175-189 | months, years, remaining months, days worked and the manual-or-computed period counts |
| Rescisao.RescisaoSalarioFinal | src/lib/calculadora.ts:167-173 | no raises: the input salary and no history; raises: the salary in force at termination and one snapshot per raise |
| Rescisao.ItensEmCentavos | src/lib/calculadora.ts:180-254 | every line item is a whole number of cents |
| Rescisao.ItensJustaCausa | src/lib/calculadora.ts:197-254 | just cause: no proportional vacation, thirteenth, notice or penalty; total is saldo + vencidas + dobro |
| Rescisao.ItensPedidoDemissao | src/lib/calculadora.ts:223-251 | resignation: no notice or penalty; total is saldo + total vacation + thirteenth |
| Rescisao.ItensSemJustaCausa | src/lib/calculadora.ts:223-249 | without just cause: notice days in [30, 90], 40% penalty, total of all five items |
| Rescisao.AvisoEMultaSoSemJustaCausa | src/lib/calculadora.ts:223-244 | a non-zero notice or penalty implies dismissal without just cause |
| Rescisao.FonteDoFGTS | src/lib/calculadora.ts:230-238 | supplied balance rounded; else the monthly walk with raises; else 8% of salary times diffMeses |
| Rescisao.BaseDeEntradasNaoNegativas | src/lib/calculadora.ts:166-238 | non-negative inputs give a non-negative shared part |
| Rescisao.ItensNaoNegativos | src/lib/calculadora.ts:180-254 | every line item is non-negative for such a shared part |
| Rescisao.TotalGeralPorTipo | src/lib/calculadora.ts:246-254 | the just-cause sum never exceeds the resignation sum |
| Rescisao.AcrescimoNaoReduz | src/lib/calculadora.ts:246-249 | adding notice and penalty never lowers the rounded total |
| Rescisao.JustaCausaAtePedido | src/lib/calculadora.ts:246-254 | the just-cause total is at most the resignation total |
| Rescisao.PedidoAteSemJustaCausa | src/lib/calculadora.ts:246-254 | the resignation total is at most the total without just cause |
| Rescisao.TotaisPorTipo | src/lib/calculadora.ts:165-280 | for the same non-negative inputs: just cause <= resignation <= without just cause |
| Rescisao.CasoBase | src/lib/calculadora.ts:165-238 | 3000.00 from 2020-01-10 to 2023-01-10: 36 months, two pending periods and one doubled, fund 8640.00 |
| Rescisao.CenarioSemJustaCausa | src/lib/calculadora.ts:165-280 | the same case without just cause: every line item, total 24356.00 |
| Rescisao.FGTSContagemDeMesesDiverge | src/lib/calculadora.ts:230-238 | for admission and termination on the same day of the month, with raises not yet in force, the fund counts one month more than without raises |
| Rescisao.ContagensDeMeses | src/lib/calculadora.ts:97-130 | the walk's month count is between diffMeses and diffMeses + 2, and exactly diffMeses + 1 for the same day of month |
| Rescisao.ContagensExtremas | src/lib/calculadora.ts:97-130 | 25 Jan to 5 Feb 2020 gives 0 months of service against 2 deposits; 1 to 20 Jan 2020 gives 1 against 1 |
| Tabelas.INSS | src/lib/tabelas.ts:85-99 | value in cents, zero for a non-positive base; the reported base is the smaller of the input and the last ceiling |
| Tabelas.CalcularINSS | src/lib/tabelas.ts:85-99 | the loop charges each bracket its rate on the slice above the previous ceiling, stopping once the base is covered |
| Tabelas.Contribuicao | src/lib/tabelas.ts:87-96 | the unrounded walk: each bracket charges its rate on min(base, ceiling) minus the previous ceiling, stopping once the base does not exceed the previous ceiling |
| Tabelas.TetoDaTabela | src/lib/tabelas.ts:98 | in an increasing table the last ceiling is the largest |
| Tabelas.ContribuicaoNaoNegativa | src/lib/tabelas.ts:90-96 | the contribution of an increasing table is never negative |
| Tabelas.ContribuicaoMonotone | src/lib/tabelas.ts:90-96 | a larger base never contributes less |
| Tabelas.INSSMonotone | src/lib/tabelas.ts:85-99 | a larger base never pays less INSS |
| Tabelas.ContribuicaoParaNoTeto | src/lib/tabelas.ts:91-96 | a base at or below a ceiling is not charged by any later bracket |
| Tabelas.ContribuicaoAcimaDoTeto | src/lib/tabelas.ts:90-96 | a base at or above the last ceiling pays every bracket in full |
| Tabelas.INSSDaBaseLimitada | src/lib/tabelas.ts:85-99 | the contribution equals that of the reported (capped) base |
| Tabelas.INSSPadraoExemplo | src/lib/tabelas.ts:15-20 | 3000.00 pays 258.82 under the 2024 table |
| Tabelas.INSSPadraoTeto | src/lib/tabelas.ts:15-20 | any base at or above 7786.02 pays 908.86 on a base of 7786.02 |
| Tabelas.PrimeiraFaixa | src/lib/tabelas.ts:117-123 | the first bracket whose ceiling is at or above the base, or none |
| Tabelas.BaseIRRF | src/lib/tabelas.ts:109-110 | gross minus INSS minus 189.59 per dependant |
| Tabelas.ImpostoNaFaixa | src/lib/tabelas.ts:119 | a bracket's rate on the base less its deduction |
| Tabelas.IRRF | src/lib/tabelas.ts:102-130 | value non-negative and in cents; a non-positive base gives exactly (0, 0, Isento) |
| Tabelas.RotuloDaFaixa | src/lib/tabelas.ts:120 | Isento exactly for a zero-rate bracket |
| Tabelas.CalcularIRRF | src/lib/tabelas.ts:102-130 | the loop applies the first bracket containing the base, rounds and floors at zero |
| Tabelas.ImpostoAteBase | src/lib/tabelas.ts:119-127 | a percentage rate with a non-negative deduction never takes more than the base |
| Tabelas.IRRFNaoExcedeBase | src/lib/tabelas.ts:102-130 | the tax never exceeds the reported base |
| Tabelas.UltimaFaixaAberta | src/lib/tabelas.ts:117-123 | a table ending in an unbounded bracket always finds a bracket |
| Tabelas.IRRFPadraoIsento | src/lib/tabelas.ts:22-28 | under the 2024 table a base up to 2259.20 is exempt |
| Tabelas.IRRFPadraoTopo | src/lib/tabelas.ts:22-28 | above 4664.68 the rate is 27.5% less 896.00 |
| Tabelas.IRRFPadraoExemplo | src/lib/tabelas.ts:102-130 | 3000.00 less 258.82 INSS pays 36.15 at 7.5% on 2741.18 |
| Tabelas.ImpostoPadraoMonotone | src/lib/tabelas.ts:22-28 | on the 2024 table the unrounded tax never falls when the base grows by 1.00 or more |
| Tabelas.DependentesNaoAumentam | src/lib/tabelas.ts:102-130 | on the 2024 table, more dependants never raise the tax withheld |
| Tabelas.Parcelas | src/lib/tabelas.ts:157-160 | 3, 4 or 5 instalments: 3 exactly below 12 months, 5 exactly from 24 |
| Tabelas.ValorDaFaixa | src/lib/tabelas.ts:143-149 | a tier's value: the average above the first ceiling at the multiplier plus the additional amount, the average at the multiplier, or the additional amount alone |
| Tabelas.ParcelaBruta | src/lib/tabelas.ts:141-152 | the value of the first tier containing the average, zero when none does |
| Tabelas.TotalSeguro | src/lib/tabelas.ts:165 | the total is in cents |
| Tabelas.SeguroDesemprego | src/lib/tabelas.ts:133-167 | none exactly below 6 months; otherwise the instalment is in cents and at most the ceiling, and the total is in cents |
| Tabelas.TetoEmCentavos | src/lib/tabelas.ts:45 | the ceiling is a cent amount, unchanged by rounding |
| Tabelas.CalcularSeguroDesemprego | src/lib/tabelas.ts:133-167 | the loop takes the first tier containing the average, caps, rounds and counts instalments |
| Tabelas.SeguroTresFaixas | src/lib/tabelas.ts:140-155 | the instalment is the three-tier formula (80%; 50% above 2041.39 plus 1633.10; 2313.74), capped and rounded |
| Tabelas.TresFaixasAbaixoDoTeto | src/lib/tabelas.ts:39-45 | the three-tier formula never exceeds the ceiling |
| Tabelas.SeguroParcelas | src/lib/tabelas.ts:157-166 | 3, 4 or 5 instalments by months worked, and the total is the rounded product |
| UserConfig.Digitos | src/lib/userConfig.ts:57 | stripping leaves only digits and never lengthens the input |
| UserConfig.ValorDigito | src/lib/userConfig.ts:67 | a digit's value is 0 to 9 |
| UserConfig.Soma | src/lib/userConfig.ts:65-68 | the weighted sum is never negative |
| UserConfig.DigitoVerificador | src/lib/userConfig.ts:64-71 | a check digit is 0 to 9 |
| UserConfig.Calc | src/lib/userConfig.ts:64-71 | the loop accumulates the weighted sum and maps the remainder modulo 11 to a check digit |
| UserConfig.CnpjValido | src/lib/userConfig.ts:56-83 | the accepted strings: 14 digits after stripping, not all the same, both check digits matching |
| UserConfig.ValidarCNPJ | src/lib/userConfig.ts:56-83 | true exactly for 14 digits, not all the same, whose 13th and 14th digits are the check digits under w1 and w2 |
| UserConfig.DigitosConcat | src/lib/userConfig.ts:57 | stripping distributes over concatenation |
| UserConfig.DigitosDeDigitos | src/lib/userConfig.ts:57 | a string of digits strips to itself |
| UserConfig.DigitosIdempotente | src/lib/userConfig.ts:57 | stripping twice equals stripping once |
| UserConfig.ValidacaoIgnoraNaoDigitos | src/lib/userConfig.ts:57 | a string validates exactly as its digits do |
| UserConfig.ValidacaoIgnoraSeparadores | src/lib/userConfig.ts:57 | inserting non-digits anywhere does not change validity |
| UserConfig.DigitosSemDigitos | src/lib/userConfig.ts:57 | a string without digits strips to nothing |
| UserConfig.Primeiros14 | src/lib/userConfig.ts:86 | `slice(0, 14)` keeps at most the first 14 characters |
| UserConfig.Mascara | src/lib/userConfig.ts:87-91 | the mask inserts 0 to 4 separators according to the number of digits |
| UserConfig.FormatarCNPJ | src/lib/userConfig.ts:85-92 | the mask of the first 14 digits of the input, specified by `DigitosDoFormatado`, `FormatarIdempotente` and `FormatarCompleto` |
| UserConfig.DigitosComSeparador | src/lib/userConfig.ts:88-91 | one separator between digits contributes no digit |
| UserConfig.DigitosDaMascara | src/lib/userConfig.ts:87-91 | stripping the mask gives back the masked digits |
| UserConfig.DigitosDoFormatado | src/lib/userConfig.ts:85-92 | stripping a formatted value gives the first (at most 14) digits of the input |
| UserConfig.FormatarIdempotente | src/lib/userConfig.ts:85-92 | formatting is idempotent |
| UserConfig.FormatadoValidaComoOriginal | src/lib/userConfig.ts:56-92 | a value with at most 14 digits validates exactly as its formatted form |
| UserConfig.FormatarPoucosDigitos | src/lib/userConfig.ts:87 | up to two digits are returned bare |
| UserConfig.FormatarCompleto | src/lib/userConfig.ts:91 | 14 digits give 18 characters shaped `NN.NNN.NNN/NNNN-NN` |
| UserConfig.SomaDoPrefixo | src/lib/userConfig.ts:65-68 | the weighted sum of n digits depends on those digits only |
| UserConfig.PrimeiroVerificadorUnico | src/lib/userConfig.ts:76-77 | changing the 13th digit of a valid number makes it invalid |
| UserConfig.SegundoVerificadorUnico | src/lib/userConfig.ts:79-80 | changing the 14th digit of a valid number makes it invalid |
| UserConfig.CharDigito | src/lib/userConfig.ts:67 | the digit character whose value is d |
| UserConfig.Completar | src/lib/userConfig.ts:73-80 | a 12-digit base extended by two digits |
| UserConfig.CompletarEValido | src/lib/userConfig.ts:56-83 | a base completed with its two check digits is valid unless all 14 digits are the same |
| UserConfig.SomaDeZeros | src/lib/userConfig.ts:65-68 | the weighted sum of zeros is zero |
| UserConfig.ZerosSoRejeitadosPorRepeticao | src/lib/userConfig.ts:61-80 | fourteen zeros pass both check digits and are rejected only by the repeated-digit rule |
| UserConfig.ExemploSoDigitos | src/lib/userConfig.ts:57 | 11222333000181 is 14 digits |
| UserConfig.ExemploSomas | src/lib/userConfig.ts:64-71 | its weighted sums are 102 under w1 and 120 under w2 |
| UserConfig.ExemploValido | src/lib/userConfig.ts:56-83 | 11222333000181 is valid |
| UserConfig.ExemploMascaraAteOito | src/lib/userConfig.ts:89 | its first eight digits mask to 11.222.333 |
| UserConfig.ExemploMascara | src/lib/userConfig.ts:91 | its full mask is 11.222.333/0001-81 |
| UserConfig.CnpjExemplo | src/lib/userConfig.ts:56-92 | 11222333000181 formats to 11.222.333/0001-81, which validates |

## Left out

- Browser storage is not modelled:
  - `carregarTabela*`, `salvarTabela*` and `resetarTabelas` are left out; the tables are passed as parameters, and `calcularSeguroDesemprego` reads its constant table as the source does.
  - The history functions and the user-configuration storage are left out.
- Other I/O is not modelled: PDF generation, the React pages and components (including their inline copies of the rules), and `calcularPeriodosAutomatico`.
- `formatarMoeda` and `labelTipoRescisao` are left out. They format strings for display, using locale formatting.
- Floating-point drift: money is `real` and only the explicit rounding to cents is modelled.
- Date parsing and time zones: dates are already-normalised calendar triples. `new Date(...)` comparisons become the order on (year, month, day). The source mixes dates parsed as UTC midnight with dates built at local midnight, so in a time zone behind UTC a parsed date can read back as the previous day or month; the model assumes every date is already the intended calendar day.
- Tabelas.IRRF: the label is `Isento | Aliquota(rate)`. How JavaScript renders a number as the string `"<rate>%"` is not modelled.
- Tabelas.INSS: requires a non-empty table. The source reads `faixas[faixas.length - 1].ate` and fails on an empty one.
- Tabelas.CalcularINSS: INSS ceilings are finite reals. Only the IRRF and unemployment tables use `Infinity`, which is modelled as `Teto.Infinito`.
- Rescisao.CalcularRescisao: `aumentos` is a sequence, with an absent list being the empty sequence (`dados.aumentos || []`). `nomeFuncionario` is carried but unused.
- Rescisao.DadosRescisao: manual period counts and dependants are integers. Fractional values, which the source's `number` would admit, are not modelled.
- Tabelas.SeguroDesemprego: months worked is an integer.
