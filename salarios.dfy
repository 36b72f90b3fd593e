/** The salary-progression resolver of calculadora.ts: a starting salary and a
    list of dated raises give the salary in force at a date (rounded once, at
    the end) and the trace of salaries after each raise (rounded at every step). */
module Salarios {
  import opened Calendar
  import opened Money

  datatype TipoAumento = Percentual | ValorFixo

  /** `AumentoSalarial`: `valor` is a percentage (5 for 5%) or an amount. */
  datatype AumentoSalarial = AumentoSalarial(id: string, data: Date, tipo: TipoAumento, valor: real)

  /** One entry of `historicoAumentos`. */
  datatype Registro = Registro(data: Date, tipo: TipoAumento, valor: real, salarioResultante: real)

  /** The effect of one raise on a salary, before any rounding. */
  function Aplicar(salario: real, a: AumentoSalarial): real {
    match a.tipo
    case Percentual => salario * (1.0 + a.valor / 100.0)
    case ValorFixo => salario + a.valor
  }

  // ---------------------------------------------------------------------------
  // The stable sort by date (`[...aumentos].sort((a, b) => a.data - b.data)`)
  // ---------------------------------------------------------------------------

  predicate OrdenadoPorData(s: seq<AumentoSalarial>) {
    forall i, j :: 0 <= i < j < |s| ==> AtOrBefore(s[i].data, s[j].data)
  }

  /** Two dates that the comparator reports as equal. */
  predicate MesmoDia(a: Date, b: Date) {
    MonthIndex(a) == MonthIndex(b) && a.day == b.day
  }

  /** The raises dated on day d, in their order in s. */
  function NoDia(s: seq<AumentoSalarial>, d: Date): seq<AumentoSalarial> {
    if s == [] then []
    else (if MesmoDia(s[0].data, d) then [s[0]] else []) + NoDia(s[1..], d)
  }

  /** Inserts a in front of the first raise not dated before it. */
  function Inserir(a: AumentoSalarial, s: seq<AumentoSalarial>): (r: seq<AumentoSalarial>)
    ensures multiset(r) == multiset(s) + multiset{a}
  {
    if s == [] || AtOrBefore(a.data, s[0].data) then [a] + s
    else
      assert s == [s[0]] + s[1..];
      [s[0]] + Inserir(a, s[1..])
  }

  /** Insertion sort by date; stable, as `Array.prototype.sort` is. */
  function OrdenarPorData(s: seq<AumentoSalarial>): (r: seq<AumentoSalarial>)
    ensures multiset(r) == multiset(s)
    ensures |r| == |s|
  {
    if s == [] then []
    else
      assert s == [s[0]] + s[1..];
      Inserir(s[0], OrdenarPorData(s[1..]))
  }

  lemma {:induction false} InserirOrdenado(a: AumentoSalarial, s: seq<AumentoSalarial>)
    requires OrdenadoPorData(s)
    ensures OrdenadoPorData(Inserir(a, s))
  {
    if s == [] || AtOrBefore(a.data, s[0].data) {
    } else {
      InserirOrdenado(a, s[1..]);
      var r := Inserir(a, s[1..]);
      forall x | x in r ensures AtOrBefore(s[0].data, x.data) {
        assert x in multiset(r);
      }
      assert Inserir(a, s) == [s[0]] + r;
    }
  }

  lemma {:induction false} InserirNoDia(a: AumentoSalarial, s: seq<AumentoSalarial>, d: Date)
    ensures NoDia(Inserir(a, s), d) == (if MesmoDia(a.data, d) then [a] else []) + NoDia(s, d)
  {
    if s == [] || AtOrBefore(a.data, s[0].data) {
      assert ([a] + s)[1..] == s;
    } else {
      InserirNoDia(a, s[1..], d);
      assert ([s[0]] + Inserir(a, s[1..]))[1..] == Inserir(a, s[1..]);
    }
  }

  /** The sort returns the raises in ascending date order. */
  lemma {:induction false} OrdenarPorDataOrdena(s: seq<AumentoSalarial>)
    ensures OrdenadoPorData(OrdenarPorData(s))
  {
    if s != [] {
      OrdenarPorDataOrdena(s[1..]);
      InserirOrdenado(s[0], OrdenarPorData(s[1..]));
    }
  }

  /** The sort is stable: raises dated on the same day keep their input order. */
  lemma {:induction false} OrdenarPorDataEstavel(s: seq<AumentoSalarial>, d: Date)
    ensures NoDia(OrdenarPorData(s), d) == NoDia(s, d)
  {
    if s != [] {
      OrdenarPorDataEstavel(s[1..], d);
      InserirNoDia(s[0], OrdenarPorData(s[1..]), d);
    }
  }

  // ---------------------------------------------------------------------------
  // calcularSalarioVigente
  // ---------------------------------------------------------------------------

  /** Applies, in list order, the raises dated on or before `referencia`, skipping the others. */
  function AplicarAte(salario: real, ordenados: seq<AumentoSalarial>, referencia: Date): real
    decreases |ordenados|
  {
    if ordenados == [] then salario
    else
      var s := if AtOrBefore(ordenados[0].data, referencia) then Aplicar(salario, ordenados[0]) else salario;
      AplicarAte(s, ordenados[1..], referencia)
  }

  /** The salary in force on `referencia`: the raises up to that date in ascending
      date order, rounded to cents once. */
  function SalarioVigente(salarioInicial: real, aumentos: seq<AumentoSalarial>, referencia: Date): (r: real)
    ensures IsCents(r)
  {
    Round(AplicarAte(salarioInicial, OrdenarPorData(aumentos), referencia))
  }

  /** `calcularSalarioVigente`. */
  method CalcularSalarioVigente(salarioInicial: real, aumentos: seq<AumentoSalarial>, dataReferencia: Date)
    returns (r: real)
    ensures r == SalarioVigente(salarioInicial, aumentos, dataReferencia)
  {
    var ordenados := OrdenarPorData(aumentos);
    var salario := salarioInicial;
    for i := 0 to |ordenados|
      invariant AplicarAte(salario, ordenados[i..], dataReferencia)
             == AplicarAte(salarioInicial, ordenados, dataReferencia)
    {
      var aumento := ordenados[i];
      assert ordenados[i..][1..] == ordenados[i + 1..];
      if AtOrBefore(aumento.data, dataReferencia) {
        if aumento.tipo == Percentual {
          salario := salario * (1.0 + aumento.valor / 100.0);
        } else {
          salario := salario + aumento.valor;
        }
      }
    }
    r := Round(salario);
  }

  /** Raises dated after the reference date have no effect. */
  lemma {:induction false} AplicarAteSemEfeito(salario: real, s: seq<AumentoSalarial>, referencia: Date)
    requires forall i :: 0 <= i < |s| ==> Before(referencia, s[i].data)
    ensures AplicarAte(salario, s, referencia) == salario
  {
    if s != [] {
      AplicarAteSemEfeito(salario, s[1..], referencia);
    }
  }

  /** With no raise in force yet (in particular with no raises at all), the
      salary in force is the starting salary rounded to cents. */
  lemma SalarioVigenteSemAumentos(salarioInicial: real, aumentos: seq<AumentoSalarial>, referencia: Date)
    requires forall i :: 0 <= i < |aumentos| ==> Before(referencia, aumentos[i].data)
    ensures SalarioVigente(salarioInicial, aumentos, referencia) == Round(salarioInicial)
  {
    var o := OrdenarPorData(aumentos);
    forall i | 0 <= i < |o| ensures Before(referencia, o[i].data) {
      assert o[i] in multiset(aumentos);
    }
    AplicarAteSemEfeito(salarioInicial, o, referencia);
  }

  lemma ScaleMonotone(s: real, t: real, k: real)
    requires s <= t && k >= 0.0
    ensures s * k <= t * k
  {
  }

  /** Scaling by a factor of at least one keeps order and never shrinks a non-negative amount. */
  lemma ScaleGrows(s: real, t: real, k: real)
    requires 0.0 <= s <= t && k >= 1.0
    ensures s <= s * k && 0.0 <= s * k <= t * k && t <= t * k
  {
    ScaleMonotone(s, t, k);
    ScaleMonotone(1.0, k, s);
    ScaleMonotone(1.0, k, t);
  }

  /** With raises of non-negative magnitude, one more raise never lowers a non-negative salary. */
  lemma AplicarCresce(s: real, t: real, a: AumentoSalarial)
    requires 0.0 <= s <= t && a.valor >= 0.0
    ensures s <= Aplicar(s, a) && 0.0 <= Aplicar(s, a) <= Aplicar(t, a) && t <= Aplicar(t, a)
  {
    if a.tipo == Percentual {
      var k := 1.0 + a.valor / 100.0;
      ScaleGrows(s, t, k);
    }
  }

  lemma {:induction false} AplicarAteMonotone(s: real, t: real, o: seq<AumentoSalarial>, r1: Date, r2: Date)
    requires 0.0 <= s <= t && AtOrBefore(r1, r2)
    requires forall i :: 0 <= i < |o| ==> o[i].valor >= 0.0
    ensures 0.0 <= AplicarAte(s, o, r1) <= AplicarAte(t, o, r2)
    decreases |o|
  {
    if o != [] {
      var a := o[0];
      AplicarCresce(s, t, a);
      var s' := if AtOrBefore(a.data, r1) then Aplicar(s, a) else s;
      var t' := if AtOrBefore(a.data, r2) then Aplicar(t, a) else t;
      AplicarCresce(t, t, a);
      AplicarAteMonotone(s', t', o[1..], r1, r2);
    }
  }

  /** With a non-negative starting salary and raises of non-negative magnitude,
      the salary in force never decreases as the reference date advances. */
  lemma SalarioVigenteMonotone(salarioInicial: real, aumentos: seq<AumentoSalarial>, r1: Date, r2: Date)
    requires salarioInicial >= 0.0 && AtOrBefore(r1, r2)
    requires forall i :: 0 <= i < |aumentos| ==> aumentos[i].valor >= 0.0
    ensures 0.0 <= SalarioVigente(salarioInicial, aumentos, r1) <= SalarioVigente(salarioInicial, aumentos, r2)
  {
    var o := OrdenarPorData(aumentos);
    forall i | 0 <= i < |o| ensures o[i].valor >= 0.0 {
      assert o[i] in multiset(aumentos);
    }
    AplicarAteMonotone(salarioInicial, salarioInicial, o, r1, r2);
    RoundMonotone(AplicarAte(salarioInicial, o, r1), AplicarAte(salarioInicial, o, r2));
  }

  // ---------------------------------------------------------------------------
  // gerarHistoricoSalarios
  // ---------------------------------------------------------------------------

  /** The trace of a list already in order: each raise applied to the previous
      rounded salary, and the result rounded again. */
  function Historico(salario: real, ordenados: seq<AumentoSalarial>): (h: seq<Registro>)
    ensures |h| == |ordenados|
    decreases |ordenados|
  {
    if ordenados == [] then []
    else
      var a := ordenados[0];
      var s := Round(Aplicar(salario, a));
      [Registro(a.data, a.tipo, a.valor, s)] + Historico(s, ordenados[1..])
  }

  /** What `gerarHistoricoSalarios` returns. */
  function HistoricoSalarios(salarioInicial: real, aumentos: seq<AumentoSalarial>): seq<Registro> {
    Historico(salarioInicial, OrdenarPorData(aumentos))
  }

  lemma HistoricoPasso(salario: real, o: seq<AumentoSalarial>, i: nat)
    requires i < |o|
    ensures var s := Round(Aplicar(salario, o[i]));
            Historico(salario, o[i..]) == [Registro(o[i].data, o[i].tipo, o[i].valor, s)] + Historico(s, o[i + 1..])
  {
    assert o[i..][1..] == o[i + 1..];
  }

  /** `gerarHistoricoSalarios`: pushes one entry per raise. */
  method GerarHistoricoSalarios(salarioInicial: real, aumentos: seq<AumentoSalarial>)
    returns (historico: seq<Registro>)
    ensures historico == HistoricoSalarios(salarioInicial, aumentos)
  {
    var ordenados := OrdenarPorData(aumentos);
    historico := [];
    var salario := salarioInicial;
    for i := 0 to |ordenados|
      invariant historico + Historico(salario, ordenados[i..]) == Historico(salarioInicial, ordenados)
    {
      var aumento := ordenados[i];
      HistoricoPasso(salario, ordenados, i);
      ghost var anterior := salario;
      if aumento.tipo == Percentual {
        salario := salario * (1.0 + aumento.valor / 100.0);
      } else {
        salario := salario + aumento.valor;
      }
      assert salario == Aplicar(anterior, aumento);
      salario := Round(salario);
      var registro := Registro(aumento.data, aumento.tipo, aumento.valor, salario);
      assert historico + [registro] + Historico(salario, ordenados[i + 1..])
          == historico + ([registro] + Historico(salario, ordenados[i + 1..]));
      historico := historico + [registro];
    }
    assert ordenados[|ordenados|..] == [];
  }

  /** The salary an entry of the trace starts from: the starting salary for the
      first entry, the previous entry's result for the others. */
  function Anterior(salarioInicial: real, h: seq<Registro>, k: nat): real
    requires k < |h|
  {
    if k == 0 then salarioInicial else h[k - 1].salarioResultante
  }

  lemma {:induction false} HistoricoEntradas(salario: real, o: seq<AumentoSalarial>)
    ensures var h := Historico(salario, o);
            |h| == |o| &&
            forall k :: 0 <= k < |h| ==>
              h[k].data == o[k].data && h[k].tipo == o[k].tipo && h[k].valor == o[k].valor &&
              h[k].salarioResultante == Round(Aplicar(Anterior(salario, h, k), o[k]))
    decreases |o|
  {
    if o != [] {
      var s := Round(Aplicar(salario, o[0]));
      HistoricoEntradas(s, o[1..]);
      var h := Historico(salario, o);
      assert h[1..] == Historico(s, o[1..]);
      forall k | 1 <= k < |h| ensures Anterior(salario, h, k) == Anterior(s, h[1..], k - 1) {
      }
    }
  }

  /** The trace holds exactly one entry per raise, in ascending date order; each
      entry is its raise applied to the previous entry's salary (the starting
      salary for the first), rounded to cents. */
  lemma HistoricoSalariosCorreto(salarioInicial: real, aumentos: seq<AumentoSalarial>)
    ensures var h := HistoricoSalarios(salarioInicial, aumentos);
            var o := OrdenarPorData(aumentos);
            |h| == |aumentos| &&
            (forall i, j :: 0 <= i < j < |h| ==> AtOrBefore(h[i].data, h[j].data)) &&
            (forall k :: 0 <= k < |h| ==>
               h[k].data == o[k].data && h[k].tipo == o[k].tipo && h[k].valor == o[k].valor &&
               IsCents(h[k].salarioResultante) &&
               h[k].salarioResultante == Round(Aplicar(Anterior(salarioInicial, h, k), o[k])))
  {
    HistoricoEntradas(salarioInicial, OrdenarPorData(aumentos));
    OrdenarPorDataOrdena(aumentos);
  }

  // ---------------------------------------------------------------------------
  // Rounding once versus rounding at every step
  // ---------------------------------------------------------------------------

  /** Applies every raise of the list in order, unrounded. */
  function AplicarTodos(salario: real, ordenados: seq<AumentoSalarial>): real
    decreases |ordenados|
  {
    if ordenados == [] then salario else AplicarTodos(Aplicar(salario, ordenados[0]), ordenados[1..])
  }

  /** A raise of a fixed whole number of cents. */
  predicate FixoEmCentavos(a: AumentoSalarial) {
    a.tipo == ValorFixo && IsCents(a.valor)
  }

  lemma {:induction false} AplicarAteTodos(salario: real, o: seq<AumentoSalarial>, referencia: Date)
    requires forall i :: 0 <= i < |o| ==> AtOrBefore(o[i].data, referencia)
    ensures AplicarAte(salario, o, referencia) == AplicarTodos(salario, o)
    decreases |o|
  {
    if o != [] {
      AplicarAteTodos(Aplicar(salario, o[0]), o[1..], referencia);
    }
  }

  lemma {:induction false} HistoricoExato(salario: real, o: seq<AumentoSalarial>)
    requires IsCents(salario) && o != []
    requires forall i :: 0 <= i < |o| ==> FixoEmCentavos(o[i])
    ensures Historico(salario, o)[|o| - 1].salarioResultante == AplicarTodos(salario, o)
    decreases |o|
  {
    CentsAdd(salario, o[0].valor);
    RoundCents(Aplicar(salario, o[0]));
    if |o| > 1 {
      HistoricoExato(Aplicar(salario, o[0]), o[1..]);
      assert Historico(salario, o)[1..] == Historico(Aplicar(salario, o[0]), o[1..]);
    }
  }

  /** When the starting salary and every raise are fixed amounts in whole cents and
      all raises are in force, the trace's last salary is the salary in force: the
      two rounding disciplines agree. */
  lemma HistoricoConcordaComVigente(salarioInicial: real, aumentos: seq<AumentoSalarial>, referencia: Date)
    requires IsCents(salarioInicial) && aumentos != []
    requires forall i :: 0 <= i < |aumentos| ==> FixoEmCentavos(aumentos[i]) && AtOrBefore(aumentos[i].data, referencia)
    ensures var h := HistoricoSalarios(salarioInicial, aumentos);
            h[|h| - 1].salarioResultante == SalarioVigente(salarioInicial, aumentos, referencia)
  {
    var o := OrdenarPorData(aumentos);
    forall i | 0 <= i < |o| ensures FixoEmCentavos(o[i]) && AtOrBefore(o[i].data, referencia) {
      assert o[i] in multiset(aumentos);
    }
    HistoricoExato(salarioInicial, o);
    AplicarAteTodos(salarioInicial, o, referencia);
    var x := AplicarTodos(salarioInicial, o);
    HistoricoEntradas(salarioInicial, o);
    assert IsCents(x);
    RoundCents(x);
  }

  /** With percentage raises the two disciplines can differ by a cent: from 1.00
      with two raises of 0.6%, the salary in force is 1.01 (1.012036 rounded once)
      while the trace goes 1.01 (1.006) and then 1.02 (1.01606). */
  lemma ArredondamentoDuploDiverge()
    ensures var a1 := AumentoSalarial("1", Date(2021, 1, 1), Percentual, 0.6);
            var a2 := AumentoSalarial("2", Date(2022, 1, 1), Percentual, 0.6);
            var h := HistoricoSalarios(1.0, [a1, a2]);
            SalarioVigente(1.0, [a1, a2], Date(2023, 1, 1)) == 1.01 &&
            |h| == 2 && h[1].salarioResultante == 1.02
  {
    var a1 := AumentoSalarial("1", Date(2021, 1, 1), Percentual, 0.6);
    var a2 := AumentoSalarial("2", Date(2022, 1, 1), Percentual, 0.6);
    assert OrdenarPorData([a2]) == [a2];
    assert OrdenarPorData([a1, a2]) == [a1, a2];
    assert Round(1.006) == 1.01;
    assert Round(1.01606) == 1.02;
    assert Round(1.012036) == 1.01;
  }

  /** A 10% raise on 1 June 2021 over a salary of 2000.00: in force on 1 January
      2022 the salary is 2200.00, and the trace holds that single raise. */
  lemma CenarioAumentoPercentual()
    ensures var a := AumentoSalarial("1", Date(2021, 6, 1), Percentual, 10.0);
            var h := HistoricoSalarios(2000.0, [a]);
            SalarioVigente(2000.0, [a], Date(2022, 1, 1)) == 2200.0 &&
            h == [Registro(Date(2021, 6, 1), Percentual, 10.0, 2200.0)]
  {
    RoundCents(2200.0);
  }
}
