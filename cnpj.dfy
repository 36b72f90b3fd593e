/** The CNPJ (Brazilian company registration number) logic of userConfig.ts:
    modulo-11 check-digit validation and the progressive `NN.NNN.NNN/NNNN-NN` mask. */
module UserConfig {

  /** `\d` in a JavaScript regular expression: an ASCII decimal digit. */
  predicate IsDigit(c: char) {
    '0' <= c <= '9'
  }

  predicate AllDigits(s: string) {
    forall i :: 0 <= i < |s| ==> IsDigit(s[i])
  }

  /** `s.replace(/\D/g, '')`: the digits of s, in order. */
  function Digitos(s: string): (r: string)
    ensures AllDigits(r) && |r| <= |s|
  {
    if |s| == 0 then ""
    else (if IsDigit(s[0]) then [s[0]] else "") + Digitos(s[1..])
  }

  /** `parseInt` of one digit character. */
  function ValorDigito(c: char): (v: int)
    requires IsDigit(c)
    ensures 0 <= v <= 9
  {
    c as int - '0' as int
  }

  // ---------------------------------------------------------------------------
  // validarCNPJ
  // ---------------------------------------------------------------------------

  /** The weights of the first check digit. */
  const W1: seq<int> := [5, 4, 3, 2, 9, 8, 7, 6, 5, 4, 3, 2]

  /** The weights of the second check digit. */
  const W2: seq<int> := [6, 5, 4, 3, 2, 9, 8, 7, 6, 5, 4, 3, 2]

  /** Weights as the two check digits use them: none negative. */
  predicate Pesos(weights: seq<int>) {
    forall i :: 0 <= i < |weights| ==> weights[i] >= 0
  }

  /** The weighted sum of the first n digits. */
  function Soma(digits: string, weights: seq<int>, n: nat): (s: int)
    requires n <= |weights| && n <= |digits| && AllDigits(digits) && Pesos(weights)
    ensures s >= 0
  {
    if n == 0 then 0 else Soma(digits, weights, n - 1) + ValorDigito(digits[n - 1]) * weights[n - 1]
  }

  /** The check digit of `calc`: the weighted sum modulo 11, a remainder below 2
      giving 0 and any other remainder r giving 11 - r. The sum is never
      negative, so the remainder of JavaScript and Dafny coincide. */
  function DigitoVerificador(digits: string, weights: seq<int>): (d: int)
    requires |weights| <= |digits| && AllDigits(digits) && Pesos(weights)
    ensures 0 <= d <= 9
  {
    var resto := Soma(digits, weights, |weights|) % 11;
    if resto < 2 then 0 else 11 - resto
  }

  /** The inner `calc` of `validarCNPJ`: accumulates the weighted sum in a loop. */
  method Calc(digits: string, weights: seq<int>) returns (d: int)
    requires |weights| <= |digits| && AllDigits(digits) && Pesos(weights)
    ensures d == DigitoVerificador(digits, weights)
  {
    var sum := 0;
    for i := 0 to |weights|
      invariant sum == Soma(digits, weights, i)
    {
      sum := sum + ValorDigito(digits[i]) * weights[i];
    }
    var rest := sum % 11;
    d := if rest < 2 then 0 else 11 - rest;
  }

  /** `/^(\d)\1{13}$/`: fourteen repetitions of one digit. */
  predicate TodosIguais(nums: string) {
    |nums| == 14 && AllDigits(nums) && forall i :: 0 <= i < 14 ==> nums[i] == nums[0]
  }

  /** What `validarCNPJ` accepts: exactly fourteen digits once every other
      character is removed, not all the same, the thirteenth equal to the check
      digit of the first twelve under W1 and the fourteenth equal to the check
      digit of the first thirteen under W2. */
  predicate CnpjValido(cnpj: string) {
    var nums := Digitos(cnpj);
    |nums| == 14 && !TodosIguais(nums) &&
    ValorDigito(nums[12]) == DigitoVerificador(nums, W1) &&
    ValorDigito(nums[13]) == DigitoVerificador(nums, W2)
  }

  /** `validarCNPJ`. */
  method ValidarCNPJ(cnpj: string) returns (ok: bool)
    ensures ok == CnpjValido(cnpj)
  {
    var nums := Digitos(cnpj);
    if |nums| != 14 {
      return false;
    }
    if TodosIguais(nums) {
      return false;
    }
    var d1 := Calc(nums, W1);
    if ValorDigito(nums[12]) != d1 {
      return false;
    }
    var d2 := Calc(nums, W2);
    if ValorDigito(nums[13]) != d2 {
      return false;
    }
    return true;
  }

  // ---------------------------------------------------------------------------
  // formatarCNPJ
  // ---------------------------------------------------------------------------

  /** `slice(0, 14)`: at most the first fourteen characters. */
  function Primeiros14(s: string): (r: string)
    ensures |r| <= 14 && (|s| <= 14 ==> r == s) && (|s| > 14 ==> r == s[..14])
  {
    if |s| <= 14 then s else s[..14]
  }

  /** The mask applied to at most fourteen digits, one separator appearing as
      soon as a digit follows its position. */
  function Mascara(nums: string): (r: string)
    requires |nums| <= 14
    ensures |r| == |nums| + (if |nums| <= 2 then 0 else if |nums| <= 5 then 1 else if |nums| <= 8 then 2
                             else if |nums| <= 12 then 3 else 4)
  {
    if |nums| <= 2 then nums
    else if |nums| <= 5 then nums[..2] + "." + nums[2..]
    else if |nums| <= 8 then nums[..2] + "." + nums[2..5] + "." + nums[5..]
    else if |nums| <= 12 then nums[..2] + "." + nums[2..5] + "." + nums[5..8] + "/" + nums[8..]
    else nums[..2] + "." + nums[2..5] + "." + nums[5..8] + "/" + nums[8..12] + "-" + nums[12..]
  }

  /** `formatarCNPJ`: the mask applied to the first fourteen digits of the input. */
  function FormatarCNPJ(value: string): string {
    Mascara(Primeiros14(Digitos(value)))
  }

  // ---------------------------------------------------------------------------
  // Properties
  // ---------------------------------------------------------------------------

  /** Removing non-digits distributes over concatenation. */
  lemma {:induction false} DigitosConcat(a: string, b: string)
    ensures Digitos(a + b) == Digitos(a) + Digitos(b)
    decreases |a|
  {
    if |a| > 0 {
      assert (a + b)[0] == a[0];
      assert (a + b)[1..] == a[1..] + b;
      DigitosConcat(a[1..], b);
    } else {
      assert a + b == b;
    }
  }

  /** A string of digits is its own digits. */
  lemma {:induction false} DigitosDeDigitos(s: string)
    requires AllDigits(s)
    ensures Digitos(s) == s
    decreases |s|
  {
    if |s| > 0 {
      DigitosDeDigitos(s[1..]);
    }
  }

  /** Removing non-digits twice removes nothing more. */
  lemma DigitosIdempotente(s: string)
    ensures Digitos(Digitos(s)) == Digitos(s)
  {
    DigitosDeDigitos(Digitos(s));
  }

  /** Validation looks only at the digits: punctuation, spaces or letters
      anywhere in the input change nothing. */
  lemma ValidacaoIgnoraNaoDigitos(s: string)
    ensures CnpjValido(s) == CnpjValido(Digitos(s))
  {
    DigitosIdempotente(s);
  }

  /** Inserting non-digit characters anywhere does not change validity. */
  lemma ValidacaoIgnoraSeparadores(a: string, sep: string, b: string)
    requires forall i :: 0 <= i < |sep| ==> !IsDigit(sep[i])
    ensures CnpjValido(a + sep + b) == CnpjValido(a + b)
  {
    DigitosConcat(a + sep, b);
    DigitosConcat(a, sep);
    DigitosConcat(a, b);
    DigitosSemDigitos(sep);
    assert Digitos(a) + "" == Digitos(a);
    assert Digitos(a + sep + b) == Digitos(a + b);
  }

  /** A string without digits has no digits. */
  lemma {:induction false} DigitosSemDigitos(s: string)
    requires forall i :: 0 <= i < |s| ==> !IsDigit(s[i])
    ensures Digitos(s) == ""
    decreases |s|
  {
    if |s| > 0 {
      DigitosSemDigitos(s[1..]);
    }
  }

  /** A separator between a prefix and a run of digits leaves the prefix's
      digits followed by the run. */
  lemma DigitosComSeparador(p: string, sep: string, y: string)
    requires |sep| == 1 && !IsDigit(sep[0]) && AllDigits(y)
    ensures Digitos(p + sep + y) == Digitos(p) + y
  {
    DigitosConcat(p + sep, y);
    DigitosConcat(p, sep);
    DigitosSemDigitos(sep);
    DigitosDeDigitos(y);
    assert Digitos(p) + "" == Digitos(p);
  }

  /** The digits of the mask are the digits masked. */
  lemma DigitosDaMascara(nums: string)
    requires |nums| <= 14 && AllDigits(nums)
    ensures Digitos(Mascara(nums)) == nums
  {
    if |nums| <= 2 {
      DigitosDeDigitos(nums);
    } else {
      var a := nums[..2];
      DigitosDeDigitos(a);
      if |nums| <= 5 {
        DigitosComSeparador(a, ".", nums[2..]);
        assert a + nums[2..] == nums;
      } else {
        var ab := a + "." + nums[2..5];
        DigitosComSeparador(a, ".", nums[2..5]);
        assert Digitos(ab) == nums[..5];
        if |nums| <= 8 {
          DigitosComSeparador(ab, ".", nums[5..]);
          assert nums[..5] + nums[5..] == nums;
        } else {
          var abc := ab + "." + nums[5..8];
          DigitosComSeparador(ab, ".", nums[5..8]);
          assert Digitos(abc) == nums[..8];
          if |nums| <= 12 {
            DigitosComSeparador(abc, "/", nums[8..]);
            assert nums[..8] + nums[8..] == nums;
          } else {
            var abcd := abc + "/" + nums[8..12];
            DigitosComSeparador(abc, "/", nums[8..12]);
            assert Digitos(abcd) == nums[..12];
            DigitosComSeparador(abcd, "-", nums[12..]);
            assert nums[..12] + nums[12..] == nums;
          }
        }
      }
    }
  }

  /** Removing the punctuation of a formatted value gives back the first
      fourteen digits of the input. */
  lemma DigitosDoFormatado(value: string)
    ensures Digitos(FormatarCNPJ(value)) == Primeiros14(Digitos(value))
  {
    DigitosDaMascara(Primeiros14(Digitos(value)));
  }

  /** Formatting a formatted value changes nothing. */
  lemma FormatarIdempotente(value: string)
    ensures FormatarCNPJ(FormatarCNPJ(value)) == FormatarCNPJ(value)
  {
    DigitosDoFormatado(value);
  }

  /** A value with at most fourteen digits validates exactly as its formatted form. */
  lemma FormatadoValidaComoOriginal(value: string)
    requires |Digitos(value)| <= 14
    ensures CnpjValido(FormatarCNPJ(value)) == CnpjValido(value)
  {
    DigitosDoFormatado(value);
  }

  /** Up to two digits are shown bare. */
  lemma FormatarPoucosDigitos(value: string)
    requires |Digitos(value)| <= 2
    ensures FormatarCNPJ(value) == Digitos(value)
  {
  }

  /** The complete mask `NN.NNN.NNN/NNNN-NN`. */
  predicate MascaraCompleta(r: string) {
    |r| == 18 &&
    forall i :: 0 <= i < 18 ==>
      if i == 2 || i == 6 then r[i] == '.'
      else if i == 10 then r[i] == '/'
      else if i == 15 then r[i] == '-'
      else IsDigit(r[i])
  }

  /** Fourteen or more digits give the complete mask. */
  lemma FormatarCompleto(value: string)
    requires |Digitos(value)| >= 14
    ensures MascaraCompleta(FormatarCNPJ(value))
  {
    var nums := Primeiros14(Digitos(value));
    var r := FormatarCNPJ(value);
    assert r == nums[..2] + "." + nums[2..5] + "." + nums[5..8] + "/" + nums[8..12] + "-" + nums[12..];
    forall i | 0 <= i < 18
      ensures if i == 2 || i == 6 then r[i] == '.'
              else if i == 10 then r[i] == '/'
              else if i == 15 then r[i] == '-'
              else IsDigit(r[i])
    {
      if i < 2 { assert r[i] == nums[i]; }
      else if 2 < i < 6 { assert r[i] == nums[i - 1]; }
      else if 6 < i < 10 { assert r[i] == nums[i - 2]; }
      else if 10 < i < 15 { assert r[i] == nums[i - 3]; }
      else if 15 < i { assert r[i] == nums[i - 4]; }
    }
  }

  /** The weighted sum of the first n digits depends only on those digits. */
  lemma {:induction false} SomaDoPrefixo(a: string, b: string, weights: seq<int>, n: nat)
    requires n <= |weights| && n <= |a| && n <= |b| && AllDigits(a) && AllDigits(b) && Pesos(weights)
    requires a[..n] == b[..n]
    ensures Soma(a, weights, n) == Soma(b, weights, n)
  {
    if n > 0 {
      assert a[n - 1] == a[..n][n - 1] && b[n - 1] == b[..n][n - 1];
      assert a[..n - 1] == a[..n][..n - 1] && b[..n - 1] == b[..n][..n - 1];
      SomaDoPrefixo(a, b, weights, n - 1);
    }
  }

  /** The first check digit is determined by the first twelve digits: in a
      valid number, replacing the thirteenth digit by any other digit makes
      it invalid. */
  lemma PrimeiroVerificadorUnico(nums: string, c: char)
    requires |nums| == 14 && AllDigits(nums) && CnpjValido(nums) && IsDigit(c) && c != nums[12]
    ensures !CnpjValido(nums[12 := c])
  {
    DigitosDeDigitos(nums);
    var outro := nums[12 := c];
    DigitosDeDigitos(outro);
    SomaDoPrefixo(nums, outro, W1, 12);
  }

  /** The second check digit is determined by the first thirteen digits: in a
      valid number, replacing the fourteenth digit by any other digit makes
      it invalid. */
  lemma SegundoVerificadorUnico(nums: string, c: char)
    requires |nums| == 14 && AllDigits(nums) && CnpjValido(nums) && IsDigit(c) && c != nums[13]
    ensures !CnpjValido(nums[13 := c])
  {
    DigitosDeDigitos(nums);
    var outro := nums[13 := c];
    DigitosDeDigitos(outro);
    SomaDoPrefixo(nums, outro, W2, 13);
  }

  /** The character of a digit value. */
  function CharDigito(d: int): (c: char)
    requires 0 <= d <= 9
    ensures IsDigit(c) && ValorDigito(c) == d
  {
    ('0' as int + d) as char
  }

  /** A twelve-digit base followed by the two check digits the validation expects. */
  function Completar(base: string): (r: string)
    requires |base| == 12 && AllDigits(base)
    ensures |r| == 14 && AllDigits(r) && r[..12] == base
  {
    var comPrimeiro := base + [CharDigito(DigitoVerificador(base, W1))];
    comPrimeiro + [CharDigito(DigitoVerificador(comPrimeiro, W2))]
  }

  /** Every twelve-digit base completed with its check digits is accepted,
      unless all fourteen digits are the same; with the two lemmas above, the
      completion is the only valid number with that base. */
  lemma CompletarEValido(base: string)
    requires |base| == 12 && AllDigits(base)
    requires !TodosIguais(Completar(base))
    ensures CnpjValido(Completar(base))
  {
    var r := Completar(base);
    var comPrimeiro := base + [CharDigito(DigitoVerificador(base, W1))];
    DigitosDeDigitos(r);
    assert r[..12] == base[..12];
    SomaDoPrefixo(r, base, W1, 12);
    assert r[..13] == comPrimeiro[..13];
    SomaDoPrefixo(r, comPrimeiro, W2, 13);
  }

  /** The weighted sum of a run of zeros is zero. */
  lemma {:induction false} SomaDeZeros(d: string, w: seq<int>, n: nat)
    requires n <= |w| && n <= |d| && AllDigits(d) && Pesos(w)
    requires forall i :: 0 <= i < |d| ==> d[i] == '0'
    ensures Soma(d, w, n) == 0
  {
    if n > 0 {
      SomaDeZeros(d, w, n - 1);
    }
  }

  /** Fourteen zeros satisfy both check digits: only the repeated-digit rule rejects them. */
  lemma ZerosSoRejeitadosPorRepeticao(zeros: string)
    requires |zeros| == 14 && forall i :: 0 <= i < |zeros| ==> zeros[i] == '0'
    ensures AllDigits(zeros)
    ensures ValorDigito(zeros[12]) == DigitoVerificador(zeros, W1)
    ensures ValorDigito(zeros[13]) == DigitoVerificador(zeros, W2)
    ensures TodosIguais(zeros) && !CnpjValido(zeros)
  {
    SomaDeZeros(zeros, W1, 12);
    SomaDeZeros(zeros, W2, 13);
    DigitosDeDigitos(zeros);
  }

  /** The digits of a well-known valid number. */
  const Exemplo: string := "11222333000181"

  lemma ExemploSoDigitos()
    ensures |Exemplo| == 14 && AllDigits(Exemplo)
  {
    forall i | 0 <= i < |Exemplo| ensures IsDigit(Exemplo[i]) {
      assert Exemplo[i] in "0123456789";
    }
  }

  /** The weighted sums of the example: 102 under W1 (check digit 8) and 120
      under W2 (check digit 1). */
  lemma ExemploSomas()
    ensures |Exemplo| == 14 && AllDigits(Exemplo)
    ensures Soma(Exemplo, W1, 12) == 102 && Soma(Exemplo, W2, 13) == 120
  {
    ExemploSoDigitos();
    assert Soma(Exemplo, W1, 4) == 19;
    assert Soma(Exemplo, W1, 8) == 100;
    assert Soma(Exemplo, W2, 4) == 25;
    assert Soma(Exemplo, W2, 8) == 101;
    assert Soma(Exemplo, W2, 12) == 104;
  }

  lemma ExemploValido()
    ensures CnpjValido(Exemplo)
  {
    ExemploSomas();
    DigitosDeDigitos(Exemplo);
    assert Exemplo[0] != Exemplo[2];
  }

  lemma ExemploMascaraAteOito()
    ensures Exemplo[..2] + "." + Exemplo[2..5] + "." + Exemplo[5..8] == "11.222.333"
  {
    assert Exemplo[..2] + "." + Exemplo[2..5] == "11.222" by {
      assert Exemplo[..2] == "11";
      assert Exemplo[2..5] == "222";
    }
    assert Exemplo[5..8] == "333";
  }

  lemma ExemploMascara()
    ensures Mascara(Exemplo) == "11.222.333/0001-81"
  {
    assert Exemplo[..2] + "." + Exemplo[2..5] + "." + Exemplo[5..8] + "/" + Exemplo[8..12] == "11.222.333/0001" by {
      ExemploMascaraAteOito();
      assert Exemplo[8..12] == "0001";
    }
    assert Exemplo[12..] == "81";
  }

  /** A well-known valid number, formatted and raw. */
  lemma CnpjExemplo()
    ensures FormatarCNPJ("11222333000181") == "11.222.333/0001-81"
    ensures CnpjValido("11.222.333/0001-81")
  {
    ExemploValido();
    ExemploMascara();
    ExemploSoDigitos();
    DigitosDeDigitos(Exemplo);
    FormatadoValidaComoOriginal(Exemplo);
  }
}
