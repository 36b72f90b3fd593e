/** The tax and benefit tables of tabelas.ts: the progressive social-security
    contribution (INSS), the income-tax withholding (IRRF) and the
    unemployment benefit (seguro-desemprego). Tables are passed in as values. */
module Tabelas {
  import opened Optional
  import opened Money

  // ---------------------------------------------------------------------------
  // Tables and constants
  // ---------------------------------------------------------------------------

  /** A bracket ceiling: a finite amount, or `Infinity` for an open last bracket. */
  datatype Teto = Ate(valor: real) | Infinito

  /** `base <= ate`, with every amount below an infinite ceiling. */
  predicate Dentro(base: real, ate: Teto) {
    ate.Infinito? || base <= ate.valor
  }

  /** `FaixaINSS`: the bracket ceiling and its rate in percent (7.5 for 7.5%). */
  datatype FaixaINSS = FaixaINSS(ate: real, aliquota: real)

  /** `FaixaIRRF`: ceiling, rate in percent and the fixed amount deducted. */
  datatype FaixaIRRF = FaixaIRRF(ate: Teto, aliquota: real, deducao: real)

  /** `FaixaSeguroDesemprego`: ceiling, multiplier and additional amount. */
  datatype FaixaSeguro = FaixaSeguro(ate: Teto, fator: real, adicional: real)

  /** `TABELA_INSS_PADRAO` (2024). */
  const TabelaINSSPadrao: seq<FaixaINSS> := [
    FaixaINSS(1412.00, 7.5),
    FaixaINSS(2666.68, 9.0),
    FaixaINSS(4000.03, 12.0),
    FaixaINSS(7786.02, 14.0)
  ]

  /** `TABELA_IRRF_PADRAO` (2024). */
  const TabelaIRRFPadrao: seq<FaixaIRRF> := [
    FaixaIRRF(Ate(2259.20), 0.0, 0.0),
    FaixaIRRF(Ate(2826.65), 7.5, 169.44),
    FaixaIRRF(Ate(3751.05), 15.0, 381.44),
    FaixaIRRF(Ate(4664.68), 22.5, 662.77),
    FaixaIRRF(Infinito, 27.5, 896.00)
  ]

  /** `DEDUCAO_DEPENDENTE`: the taxable-base deduction per dependant. */
  const DeducaoDependente: real := 189.59

  /** `TABELA_SEGURO_DESEMPREGO` (2024). */
  const TabelaSeguroDesemprego: seq<FaixaSeguro> := [
    FaixaSeguro(Ate(2041.39), 0.8, 0.0),
    FaixaSeguro(Ate(3402.65), 0.5, 1633.10),
    FaixaSeguro(Infinito, 0.0, 2313.74)
  ]

  /** `TETO_SEGURO_DESEMPREGO`: the largest instalment. */
  const TetoSeguroDesemprego: real := 2313.74

  // ---------------------------------------------------------------------------
  // calcularINSS
  // ---------------------------------------------------------------------------

  datatype ResultadoINSS = ResultadoINSS(valor: real, baseCalculo: real)

  /** The unrounded contribution of the brackets `faixas`, the previous ceiling
      being `anterior`: each bracket charges its rate on the part of the base
      between the previous ceiling and its own; the walk stops as soon as the
      base does not exceed the previous ceiling. */
  function Contribuicao(base: real, faixas: seq<FaixaINSS>, anterior: real): real
    decreases |faixas|
  {
    if |faixas| == 0 || base <= anterior then 0.0
    else (Min(base, faixas[0].ate) - anterior) * (faixas[0].aliquota / 100.0)
         + Contribuicao(base, faixas[1..], faixas[0].ate)
  }

  /** What `calcularINSS` returns: the contribution rounded to cents, and the
      base capped at the ceiling of the last bracket. The source reads the last
      bracket unconditionally, so the table must not be empty. */
  function INSS(base: real, faixas: seq<FaixaINSS>): (r: ResultadoINSS)
    requires |faixas| > 0
    ensures IsCents(r.valor)
    ensures base <= 0.0 ==> r.valor == 0.0
    ensures r.baseCalculo <= base && r.baseCalculo <= faixas[|faixas| - 1].ate
    ensures r.baseCalculo == base || r.baseCalculo == faixas[|faixas| - 1].ate
  {
    ResultadoINSS(Round(Contribuicao(base, faixas, 0.0)), Min(base, faixas[|faixas| - 1].ate))
  }

  /** `calcularINSS`: the bracket loop with its early exit. */
  method CalcularINSS(base: real, faixas: seq<FaixaINSS>) returns (r: ResultadoINSS)
    requires |faixas| > 0
    ensures r == INSS(base, faixas)
  {
    var inss := 0.0;
    var anterior := 0.0;
    for i := 0 to |faixas|
      invariant inss + Contribuicao(base, faixas[i..], anterior) == Contribuicao(base, faixas, 0.0)
    {
      if base <= anterior {
        break;
      }
      var faixa := faixas[i];
      var teto := Min(base, faixa.ate);
      var faixaBase := teto - anterior;
      assert faixas[i..][1..] == faixas[i + 1..];
      inss := inss + faixaBase * (faixa.aliquota / 100.0);
      anterior := faixa.ate;
    }
    r := ResultadoINSS(Round(inss), Min(base, faixas[|faixas| - 1].ate));
  }

  /** Brackets with strictly increasing ceilings above `piso` and non-negative rates. */
  predicate FaixasAcima(faixas: seq<FaixaINSS>, piso: real)
    decreases |faixas|
  {
    |faixas| == 0 || (piso < faixas[0].ate && faixas[0].aliquota >= 0.0 && FaixasAcima(faixas[1..], faixas[0].ate))
  }

  /** A well-formed contribution table: non-empty, increasing positive ceilings, non-negative rates. */
  predicate TabelaINSSValida(faixas: seq<FaixaINSS>) {
    |faixas| > 0 && FaixasAcima(faixas, 0.0)
  }

  /** Every ceiling of an increasing table lies between the floor and the last ceiling. */
  lemma {:induction false} TetoDaTabela(faixas: seq<FaixaINSS>, piso: real)
    requires |faixas| > 0 && FaixasAcima(faixas, piso)
    ensures piso < faixas[|faixas| - 1].ate
    ensures forall i :: 0 <= i < |faixas| ==> faixas[i].ate <= faixas[|faixas| - 1].ate
    decreases |faixas|
  {
    if |faixas| > 1 {
      TetoDaTabela(faixas[1..], faixas[0].ate);
      assert faixas[1..][|faixas| - 2] == faixas[|faixas| - 1];
      forall i | 1 <= i < |faixas| ensures faixas[i].ate <= faixas[|faixas| - 1].ate {
        assert faixas[i] == faixas[1..][i - 1];
      }
    }
  }

  /** Non-negative rates times a non-negative part never make a negative contribution. */
  lemma ParcelaMonotone(x: real, y: real, aliquota: real)
    requires x <= y && aliquota >= 0.0
    ensures x * (aliquota / 100.0) <= y * (aliquota / 100.0)
  {
    assert (y - x) * (aliquota / 100.0) >= 0.0;
  }

  /** On an increasing table the contribution is never negative. */
  lemma {:induction false} ContribuicaoNaoNegativa(base: real, faixas: seq<FaixaINSS>, anterior: real)
    requires FaixasAcima(faixas, anterior)
    ensures Contribuicao(base, faixas, anterior) >= 0.0
    decreases |faixas|
  {
    if |faixas| > 0 && base > anterior {
      ParcelaMonotone(0.0, Min(base, faixas[0].ate) - anterior, faixas[0].aliquota);
      ContribuicaoNaoNegativa(base, faixas[1..], faixas[0].ate);
    }
  }

  /** On an increasing table a larger base never pays less. */
  lemma {:induction false} ContribuicaoMonotone(b1: real, b2: real, faixas: seq<FaixaINSS>, anterior: real)
    requires b1 <= b2 && FaixasAcima(faixas, anterior)
    ensures Contribuicao(b1, faixas, anterior) <= Contribuicao(b2, faixas, anterior)
    decreases |faixas|
  {
    if |faixas| > 0 {
      if b1 <= anterior {
        ContribuicaoNaoNegativa(b2, faixas, anterior);
      } else {
        ParcelaMonotone(Min(b1, faixas[0].ate) - anterior, Min(b2, faixas[0].ate) - anterior, faixas[0].aliquota);
        ContribuicaoMonotone(b1, b2, faixas[1..], faixas[0].ate);
      }
    }
  }

  /** A larger base never pays a smaller contribution. */
  lemma INSSMonotone(b1: real, b2: real, faixas: seq<FaixaINSS>)
    requires b1 <= b2 && TabelaINSSValida(faixas)
    ensures INSS(b1, faixas).valor <= INSS(b2, faixas).valor
  {
    ContribuicaoMonotone(b1, b2, faixas, 0.0);
    RoundMonotone(Contribuicao(b1, faixas, 0.0), Contribuicao(b2, faixas, 0.0));
  }

  /** The walk stops at the first bracket whose ceiling reaches the base: the
      brackets after bracket k are not charged when the base is at most its
      ceiling (in particular when it equals it). */
  lemma {:induction false} ContribuicaoParaNoTeto(base: real, faixas: seq<FaixaINSS>, anterior: real, k: nat)
    requires k < |faixas| && base <= faixas[k].ate
    ensures Contribuicao(base, faixas, anterior) == Contribuicao(base, faixas[..k + 1], anterior)
    decreases k
  {
    if base > anterior {
      if k == 0 {
        assert faixas[..1][1..] == [];
        if |faixas| > 1 {
          assert base <= faixas[0].ate;
        }
      } else {
        assert faixas[..k + 1][1..] == faixas[1..][..k];
        ContribuicaoParaNoTeto(base, faixas[1..], faixas[0].ate, k - 1);
      }
    }
  }

  /** Every bracket wholly below the base charges its full width. */
  function FaixasCheias(faixas: seq<FaixaINSS>, anterior: real): real
    decreases |faixas|
  {
    if |faixas| == 0 then 0.0
    else (faixas[0].ate - anterior) * (faixas[0].aliquota / 100.0) + FaixasCheias(faixas[1..], faixas[0].ate)
  }

  /** From the top ceiling upward the contribution is the sum of the full
      widths of all brackets: the base is capped at the top ceiling. */
  lemma {:induction false} ContribuicaoAcimaDoTeto(base: real, faixas: seq<FaixaINSS>, anterior: real)
    requires |faixas| > 0 && FaixasAcima(faixas, anterior) && base >= faixas[|faixas| - 1].ate
    ensures Contribuicao(base, faixas, anterior) == FaixasCheias(faixas, anterior)
    decreases |faixas|
  {
    TetoDaTabela(faixas, anterior);
    if |faixas| > 1 {
      assert faixas[1..][|faixas| - 2] == faixas[|faixas| - 1];
      ContribuicaoAcimaDoTeto(base, faixas[1..], faixas[0].ate);
    }
  }

  /** The contribution charged on any base is the one charged on the base
      capped at the top ceiling (`baseCalculo`). */
  lemma INSSDaBaseLimitada(base: real, faixas: seq<FaixaINSS>)
    requires TabelaINSSValida(faixas)
    ensures INSS(base, faixas).valor == INSS(INSS(base, faixas).baseCalculo, faixas).valor
  {
    var topo := faixas[|faixas| - 1].ate;
    if base >= topo {
      ContribuicaoAcimaDoTeto(base, faixas, 0.0);
      ContribuicaoAcimaDoTeto(topo, faixas, 0.0);
    }
  }

  /** The 2024 contribution on a 3000.00 salary: 105.90 + 112.92 + 40.00, rounded. */
  lemma INSSPadraoExemplo()
    ensures INSS(3000.0, TabelaINSSPadrao) == ResultadoINSS(258.82, 3000.0)
  {
    assert Contribuicao(3000.0, TabelaINSSPadrao, 0.0) == 258.8196;
  }

  /** The 2024 contribution is capped at 908.86, reached from a base of 7786.02. */
  lemma INSSPadraoTeto(base: real)
    requires base >= 7786.02
    ensures INSS(base, TabelaINSSPadrao) == ResultadoINSS(908.86, 7786.02)
  {
    ContribuicaoAcimaDoTeto(base, TabelaINSSPadrao, 0.0);
    assert FaixasCheias(TabelaINSSPadrao, 0.0) == 908.8618;
  }

  // ---------------------------------------------------------------------------
  // calcularIRRF
  // ---------------------------------------------------------------------------

  /** `faixaAplicada`: 'Isento', or the rate of the bracket applied
      (rendered by the source as the rate followed by '%'). */
  datatype Rotulo = Isento | Aliquota(percentual: real)

  datatype ResultadoIRRF = ResultadoIRRF(valor: real, baseCalculo: real, faixaAplicada: Rotulo)

  /** The index of the first bracket whose ceiling the base does not exceed. */
  function PrimeiraFaixa(base: real, faixas: seq<FaixaIRRF>): (r: Option<nat>)
    ensures r.Some? ==> r.value < |faixas| && Dentro(base, faixas[r.value].ate)
    ensures r.Some? ==> forall j :: 0 <= j < r.value ==> !Dentro(base, faixas[j].ate)
    ensures r.None? ==> forall j :: 0 <= j < |faixas| ==> !Dentro(base, faixas[j].ate)
    decreases |faixas|
  {
    if |faixas| == 0 then None
    else if Dentro(base, faixas[0].ate) then Some(0)
    else
      match PrimeiraFaixa(base, faixas[1..])
      case None => None
      case Some(i) => Some(i + 1)
  }

  /** The taxable base: gross minus the contribution minus 189.59 per dependant. */
  function BaseIRRF(baseTributavel: real, inss: real, dependentes: int): real {
    baseTributavel - inss - dependentes as real * DeducaoDependente
  }

  /** What `calcularIRRF` returns: exempt with a zero base when the taxable
      base is not positive; otherwise the rate of the first bracket that
      contains the base less its deduction, rounded and floored at zero
      (zero as well when no bracket contains the base), with the base rounded. */
  function IRRF(baseTributavel: real, inss: real, dependentes: int, faixas: seq<FaixaIRRF>): (r: ResultadoIRRF)
    ensures r.valor >= 0.0 && IsCents(r.valor) && IsCents(r.baseCalculo)
    ensures BaseIRRF(baseTributavel, inss, dependentes) <= 0.0 ==> r == ResultadoIRRF(0.0, 0.0, Isento)
  {
    var base := BaseIRRF(baseTributavel, inss, dependentes);
    if base <= 0.0 then
      CentsOfInt(0);
      ResultadoIRRF(0.0, 0.0, Isento)
    else
      match PrimeiraFaixa(base, faixas)
      case None => ResultadoIRRF(Max(0.0, Round(0.0)), Round(base), Isento)
      case Some(i) => ResultadoIRRF(Max(0.0, Round(ImpostoNaFaixa(base, faixas[i]))), Round(base), RotuloDaFaixa(faixas[i]))
  }

  /** The tax of a bracket before rounding: its rate on the base less its deduction. */
  function ImpostoNaFaixa(base: real, faixa: FaixaIRRF): real {
    base * (faixa.aliquota / 100.0) - faixa.deducao
  }

  /** 'Isento' for a zero-rate bracket, its rate otherwise. */
  function RotuloDaFaixa(faixa: FaixaIRRF): (r: Rotulo)
    ensures r == Isento <==> faixa.aliquota == 0.0
  {
    if faixa.aliquota == 0.0 then Isento else Aliquota(faixa.aliquota)
  }

  /** `calcularIRRF`: scans the brackets and stops at the first that contains the base. */
  method CalcularIRRF(baseTributavel: real, inss: real, dependentes: int, faixas: seq<FaixaIRRF>)
    returns (r: ResultadoIRRF)
    ensures r == IRRF(baseTributavel, inss, dependentes, faixas)
  {
    var deducaoDep := dependentes as real * DeducaoDependente;
    var base := baseTributavel - inss - deducaoDep;
    if base <= 0.0 {
      return ResultadoIRRF(0.0, 0.0, Isento);
    }
    var faixaAplicada := Isento;
    var irrf := 0.0;
    var encontrada := false;
    for i := 0 to |faixas|
      invariant !encontrada && irrf == 0.0 && faixaAplicada == Isento
      invariant forall j :: 0 <= j < i ==> !Dentro(base, faixas[j].ate)
    {
      var faixa := faixas[i];
      if Dentro(base, faixa.ate) {
        irrf := ImpostoNaFaixa(base, faixa);
        faixaAplicada := RotuloDaFaixa(faixa);
        encontrada := true;
        assert PrimeiraFaixa(base, faixas) == Some(i);
        break;
      }
    }
    if !encontrada {
      assert PrimeiraFaixa(base, faixas).None?;
    }
    r := ResultadoIRRF(Max(0.0, Round(irrf)), Round(base), faixaAplicada);
  }

  /** A table whose rates are percentages and whose deductions are not negative. */
  predicate TabelaIRRFValida(faixas: seq<FaixaIRRF>) {
    forall i :: 0 <= i < |faixas| ==> 0.0 <= faixas[i].aliquota <= 100.0 && faixas[i].deducao >= 0.0
  }

  /** A bracket whose rate is a percentage and whose deduction is not
      negative never takes more than the whole (rounded) base. */
  lemma ImpostoAteBase(base: real, faixa: FaixaIRRF)
    requires base > 0.0 && 0.0 <= faixa.aliquota <= 100.0 && faixa.deducao >= 0.0
    ensures Max(0.0, Round(ImpostoNaFaixa(base, faixa))) <= Round(base)
  {
    var parte := base * (faixa.aliquota / 100.0);
    assert parte <= base by {
      assert parte == (base / 100.0) * faixa.aliquota;
      assert (base / 100.0) * faixa.aliquota <= (base / 100.0) * 100.0;
    }
    RoundMonotone(ImpostoNaFaixa(base, faixa), base);
  }

  /** The tax withheld never exceeds the (rounded) taxable base. */
  lemma IRRFNaoExcedeBase(baseTributavel: real, inss: real, dependentes: int, faixas: seq<FaixaIRRF>)
    requires TabelaIRRFValida(faixas)
    ensures var r := IRRF(baseTributavel, inss, dependentes, faixas);
            r.valor <= r.baseCalculo
  {
    var base := BaseIRRF(baseTributavel, inss, dependentes);
    if base > 0.0 {
      match PrimeiraFaixa(base, faixas)
      case None =>
      case Some(i) => ImpostoAteBase(base, faixas[i]);
    }
  }

  /** When the last bracket is open every positive base finds a bracket. */
  lemma UltimaFaixaAberta(base: real, faixas: seq<FaixaIRRF>)
    requires |faixas| > 0 && faixas[|faixas| - 1].ate.Infinito?
    ensures PrimeiraFaixa(base, faixas).Some?
  {
  }

  /** On the 2024 table, a taxable base up to 2259.20 is exempt. */
  lemma IRRFPadraoIsento(baseTributavel: real, inss: real, dependentes: int)
    requires BaseIRRF(baseTributavel, inss, dependentes) <= 2259.20
    ensures var r := IRRF(baseTributavel, inss, dependentes, TabelaIRRFPadrao);
            r.valor == 0.0 && r.faixaAplicada == Isento
  {
    CentsOfInt(0);
    RoundCents(0.0);
  }

  /** On the 2024 table, above 4664.68 the top rate applies: 27.5% less 896.00. */
  lemma IRRFPadraoTopo(baseTributavel: real, inss: real, dependentes: int)
    requires BaseIRRF(baseTributavel, inss, dependentes) > 4664.68
    ensures var r := IRRF(baseTributavel, inss, dependentes, TabelaIRRFPadrao);
            var base := BaseIRRF(baseTributavel, inss, dependentes);
            r.faixaAplicada == Aliquota(27.5) && r.valor == Round(base * (27.5 / 100.0) - 896.00)
  {
    var base := BaseIRRF(baseTributavel, inss, dependentes);
    assert PrimeiraFaixa(base, TabelaIRRFPadrao) == Some(4);
    assert base * (27.5 / 100.0) - 896.00 > 0.0;
  }

  /** A 3000.00 salary after its 258.82 contribution: a base of 2741.18 falls in
      the 7.5% bracket, 205.59 less 169.44. */
  lemma IRRFPadraoExemplo()
    ensures IRRF(3000.0, 258.82, 0, TabelaIRRFPadrao) == ResultadoIRRF(36.15, 2741.18, Aliquota(7.5))
  {
    assert BaseIRRF(3000.0, 258.82, 0) == 2741.18;
    assert PrimeiraFaixa(2741.18, TabelaIRRFPadrao) == Some(1);
  }

  /** On the 2024 table the tax before rounding never decreases when the base
      grows by at least one real: the brackets meet within a fraction of a
      cent, so a step of 1.00 always outweighs the drop at a boundary. */
  lemma ImpostoPadraoMonotone(b1: real, b2: real)
    requires 0.0 < b1 && b1 + 1.0 <= b2
    ensures PrimeiraFaixa(b1, TabelaIRRFPadrao).Some? && PrimeiraFaixa(b2, TabelaIRRFPadrao).Some?
    ensures ImpostoNaFaixa(b1, TabelaIRRFPadrao[PrimeiraFaixa(b1, TabelaIRRFPadrao).value])
         <= ImpostoNaFaixa(b2, TabelaIRRFPadrao[PrimeiraFaixa(b2, TabelaIRRFPadrao).value])
  {
    UltimaFaixaAberta(b1, TabelaIRRFPadrao);
    UltimaFaixaAberta(b2, TabelaIRRFPadrao);
  }

  /** On the 2024 table, declaring more dependants never raises the tax withheld. */
  lemma DependentesNaoAumentam(baseTributavel: real, inss: real, d1: int, d2: int)
    requires 0 <= d1 <= d2
    ensures IRRF(baseTributavel, inss, d2, TabelaIRRFPadrao).valor <= IRRF(baseTributavel, inss, d1, TabelaIRRFPadrao).valor
  {
    var b1, b2 := BaseIRRF(baseTributavel, inss, d1), BaseIRRF(baseTributavel, inss, d2);
    if d1 < d2 && b2 > 0.0 {
      assert b2 + 1.0 <= b1;
      ImpostoPadraoMonotone(b2, b1);
      var i2, i1 := PrimeiraFaixa(b2, TabelaIRRFPadrao).value, PrimeiraFaixa(b1, TabelaIRRFPadrao).value;
      RoundMonotone(ImpostoNaFaixa(b2, TabelaIRRFPadrao[i2]), ImpostoNaFaixa(b1, TabelaIRRFPadrao[i1]));
    }
  }

  // ---------------------------------------------------------------------------
  // calcularSeguroDesemprego
  // ---------------------------------------------------------------------------

  datatype ResultadoSeguro = ResultadoSeguro(valorParcela: real, parcelas: int, total: real)

  /** The instalment from the bracket that contains the average salary: the
      average above the first ceiling at the bracket's multiplier plus its
      additional amount, or the average at the multiplier when there is no
      additional amount, or the additional amount alone when the multiplier is zero. */
  function ValorDaFaixa(media: real, faixa: FaixaSeguro): real {
    if faixa.fator > 0.0 then
      if faixa.adicional > 0.0 then (media - TabelaSeguroDesemprego[0].ate.valor) * faixa.fator + faixa.adicional
      else media * faixa.fator
    else faixa.adicional
  }

  /** The instalment before the ceiling: the value of the first bracket that
      contains the average, or zero when none does. */
  function ParcelaBruta(media: real, faixas: seq<FaixaSeguro>): real
    decreases |faixas|
  {
    if |faixas| == 0 then 0.0
    else if Dentro(media, faixas[0].ate) then ValorDaFaixa(media, faixas[0])
    else ParcelaBruta(media, faixas[1..])
  }

  /** Instalments: 3 below 12 months of work, 4 from 12 to 23, 5 from 24. */
  function Parcelas(meses: int): (p: int)
    ensures 3 <= p <= 5
    ensures p == 3 <==> meses < 12
    ensures p == 5 <==> meses >= 24
  {
    if meses >= 24 then 5 else if meses >= 12 then 4 else 3
  }

  /** The total paid: the instalment times the number of instalments, rounded. */
  function TotalSeguro(valorParcela: real, parcelas: int): (t: real)
    ensures IsCents(t)
  {
    Round(valorParcela * parcelas as real)
  }

  /** What `calcularSeguroDesemprego` returns: nothing below six months of
      work; otherwise the instalment capped at the ceiling and rounded, the
      number of instalments, and their rounded total. */
  function SeguroDesemprego(media: real, meses: int): (r: Option<ResultadoSeguro>)
    ensures r.None? <==> meses < 6
    ensures r.Some? ==> IsCents(r.value.valorParcela) && r.value.valorParcela <= TetoSeguroDesemprego
    ensures r.Some? ==> IsCents(r.value.total)
  {
    if meses < 6 then None
    else
      var bruta := ParcelaBruta(media, TabelaSeguroDesemprego);
      var valorParcela := Round(Min(bruta, TetoSeguroDesemprego));
      var parcelas := Parcelas(meses);
      TetoEmCentavos();
      RoundMonotone(Min(bruta, TetoSeguroDesemprego), TetoSeguroDesemprego);
      Some(ResultadoSeguro(valorParcela, parcelas, TotalSeguro(valorParcela, parcelas)))
  }

  /** The ceiling is a whole number of cents. */
  lemma TetoEmCentavos()
    ensures IsCents(TetoSeguroDesemprego) && Round(TetoSeguroDesemprego) == TetoSeguroDesemprego
  {
    assert TetoSeguroDesemprego * 100.0 == 231374.0;
    RoundCents(TetoSeguroDesemprego);
  }

  /** `calcularSeguroDesemprego`: the bracket loop with its early exit. */
  method CalcularSeguroDesemprego(media: real, meses: int) returns (r: Option<ResultadoSeguro>)
    ensures r == SeguroDesemprego(media, meses)
  {
    if meses < 6 {
      return None;
    }
    var faixas := TabelaSeguroDesemprego;
    var valorParcela := 0.0;
    for i := 0 to |faixas|
      invariant valorParcela == 0.0 && ParcelaBruta(media, faixas[i..]) == ParcelaBruta(media, faixas)
    {
      var faixa := faixas[i];
      if Dentro(media, faixa.ate) {
        if faixa.fator > 0.0 {
          valorParcela := if faixa.adicional > 0.0 then (media - faixas[0].ate.valor) * faixa.fator + faixa.adicional
                          else media * faixa.fator;
        } else {
          valorParcela := faixa.adicional;
        }
        assert valorParcela == ValorDaFaixa(media, faixa) == ParcelaBruta(media, faixas);
        break;
      }
      assert faixas[i..][1..] == faixas[i + 1..];
    }
    valorParcela := Min(valorParcela, TetoSeguroDesemprego);
    valorParcela := Round(valorParcela);
    var parcelas := 3;
    if meses >= 24 {
      parcelas := 5;
    } else if meses >= 12 {
      parcelas := 4;
    }
    r := Some(ResultadoSeguro(valorParcela, parcelas, TotalSeguro(valorParcela, parcelas)));
  }

  /** The three tiers of 2024: 80% of the average up to 2041.39; above it,
      half of the excess plus 1633.10 up to 3402.65; the ceiling 2313.74 beyond. */
  function TresFaixas(media: real): real {
    if media <= 2041.39 then media * 0.8
    else if media <= 3402.65 then (media - 2041.39) * 0.5 + 1633.10
    else 2313.74
  }

  /** The instalment follows the three tiers, capped and rounded. */
  lemma SeguroTresFaixas(media: real, meses: int)
    requires meses >= 6
    ensures SeguroDesemprego(media, meses).Some?
    ensures SeguroDesemprego(media, meses).value.valorParcela == Round(Min(TresFaixas(media), TetoSeguroDesemprego))
  {
    assert ParcelaBruta(media, TabelaSeguroDesemprego) == TresFaixas(media);
  }

  /** Within the tiers the ceiling never binds: the middle tier ends at 2313.73. */
  lemma TresFaixasAbaixoDoTeto(media: real)
    ensures TresFaixas(media) <= TetoSeguroDesemprego
  {
  }

  /** The number of instalments follows the months worked, and the total is
      the rounded product of instalment and count. */
  lemma SeguroParcelas(media: real, meses: int)
    requires meses >= 6
    ensures var r := SeguroDesemprego(media, meses).value;
            (meses < 12 ==> r.parcelas == 3) && (12 <= meses < 24 ==> r.parcelas == 4) &&
            (meses >= 24 ==> r.parcelas == 5) && r.total == Round(r.valorParcela * r.parcelas as real)
  {
  }
}
