/**
 * Validators for Brazilian registry numbers and contact data (utils/br.ts): phone
 * numbers and CEP postal codes by digit count, and the two modulo-11 check digits of
 * the Receita Federal CPF (11 digits, persons) and CNPJ (14 digits, companies).
 * The check-digit loops are methods proved against specification functions.
 */
module BrDocuments {
  import opened Text

  /** `isValidPhoneBR`: landline (area code + 8) or mobile (area code + 9 + 8). */
  function IsValidPhoneBR(raw: string): (ok: bool)
  {
    var d := OnlyDigits(raw);
    |d| == 10 || |d| == 11
  }

  /** `isValidCEP`: eight digits once formatting is stripped. */
  function IsValidCEP(raw: string): (ok: bool)
  {
    |OnlyDigits(raw)| == 8
  }

  /** Both length checks see only the digits: formatting characters never change the verdict,
      and a string of digits alone is judged by its length. */
  lemma PhoneAndCepIgnoreFormatting(raw: string)
    ensures IsValidPhoneBR(raw) == IsValidPhoneBR(OnlyDigits(raw))
    ensures IsValidCEP(raw) == IsValidCEP(OnlyDigits(raw))
    ensures AllDigits(raw) ==> (IsValidPhoneBR(raw) <==> |raw| == 10 || |raw| == 11)
    ensures AllDigits(raw) ==> (IsValidCEP(raw) <==> |raw| == 8)
  {
    OnlyDigitsIdempotent(raw);
    if AllDigits(raw) { OnlyDigitsOfDigits(raw); }
  }

  /** `/^(\d)\1{n}$/`: every digit equals the first. */
  predicate AllSame(s: string) { forall i :: 0 <= i < |s| ==> s[i] == s[0] }

  // ---------------------------------------------------------------------------
  // CPF
  // ---------------------------------------------------------------------------

  /** Sum of digit i times (top - i) over the first n digits of `ds`. */
  function CpfSum(ds: string, n: nat, top: int): int
    requires AllDigits(ds) && n <= |ds|
  {
    if n == 0 then 0 else CpfSum(ds, n - 1, top) + DigitValue(ds[n - 1]) * (top - (n - 1))
  }

  /** `11 - sum % 11`, with 0 in place of 10 and 11. */
  function CpfCheckDigit(sum: int): (d: int)
    ensures 0 <= d <= 9
  {
    var d := 11 - sum % 11;
    if d >= 10 then 0 else d
  }

  /** The CPF rule: 11 digits, not all the same, digit 10 checks the first nine with weights
      10..2 and digit 11 checks the first ten with weights 11..2. */
  predicate CpfValid(raw: string) {
    var cpf := OnlyDigits(raw);
    && |cpf| == 11
    && !AllSame(cpf)
    && CpfCheckDigit(CpfSum(cpf, 9, 10)) == DigitValue(cpf[9])
    && CpfCheckDigit(CpfSum(cpf, 10, 11)) == DigitValue(cpf[10])
  }

  /** One accumulation loop of `isValidCPF`: the check digit over the first n digits, with
      weights n + 1 down to 2. */
  method CpfDigit(cpf: string, n: nat) returns (d: int)
    requires AllDigits(cpf) && n <= |cpf|
    ensures d == CpfCheckDigit(CpfSum(cpf, n, n + 1))
  {
    var sum := 0;
    for i := 0 to n
      invariant sum == CpfSum(cpf, i, n + 1)
    {
      sum := sum + DigitValue(cpf[i]) * (n + 1 - i);
    }
    d := 11 - sum % 11;
    if d >= 10 { d := 0; }
  }

  /** `isValidCPF`. */
  method IsValidCPF(raw: string) returns (ok: bool)
    ensures ok == CpfValid(raw)
  {
    var cpf := OnlyDigits(raw);
    if |cpf| != 11 || AllSame(cpf) {
      return false;
    }
    var d1 := CpfDigit(cpf, 9);
    if d1 != DigitValue(cpf[9]) {
      return false;
    }
    var d2 := CpfDigit(cpf, 10);
    return d2 == DigitValue(cpf[10]);
  }

  // ---------------------------------------------------------------------------
  // CNPJ
  // ---------------------------------------------------------------------------

  /** Weight of digit i when `base` digits are summed: 2, 3, ..., 9, 2, 3, ... counted from the
      rightmost summed digit. */
  function CnpjWeight(base: nat, i: nat): (w: nat)
    requires i < base <= 16
    ensures 2 <= w <= 9
    ensures w == 2 + (base - 1 - i) % 8
  {
    var j := base - 1 - i;
    if j < 8 then 2 + j else j - 6
  }

  /** Sum of digit i times `CnpjWeight(base, i)` over the first n digits of `ds`. */
  function CnpjSum(ds: string, n: nat, base: nat): int
    requires AllDigits(ds) && n <= |ds| && n <= base <= 16
  {
    if n == 0 then 0 else CnpjSum(ds, n - 1, base) + DigitValue(ds[n - 1]) * CnpjWeight(base, n - 1)
  }

  /** `r < 2 ? 0 : 11 - r` with `r = sum % 11`. */
  function CnpjCheckDigit(sum: int): (d: int)
    ensures 0 <= d <= 9
  {
    var r := sum % 11;
    if r < 2 then 0 else 11 - r
  }

  /** The CNPJ rule: 14 digits, not all the same, digit 13 checks the first twelve and digit 14
      checks the first thirteen. */
  predicate CnpjValid(raw: string) {
    var cnpj := OnlyDigits(raw);
    && |cnpj| == 14
    && !AllSame(cnpj)
    && CnpjCheckDigit(CnpjSum(cnpj, 12, 12)) == DigitValue(cnpj[12])
    && CnpjCheckDigit(CnpjSum(cnpj, 13, 13)) == DigitValue(cnpj[13])
  }

  /** The inner `calc(base)` of `isValidCNPJ`: `pos` starts at base - 7, counts down and wraps
      from below 2 back to 9. */
  method Calc(cnpj: string, base: nat) returns (d: int)
    requires AllDigits(cnpj) && (base == 12 || base == 13) && base <= |cnpj|
    ensures d == CnpjCheckDigit(CnpjSum(cnpj, base, base))
  {
    var sum := 0;
    var pos := base - 7;
    for i := 0 to base
      invariant i < base ==> pos == CnpjWeight(base, i)
      invariant sum == CnpjSum(cnpj, i, base)
    {
      sum := sum + DigitValue(cnpj[i]) * pos;
      pos := pos - 1;
      if pos < 2 { pos := 9; }
    }
    var r := sum % 11;
    d := if r < 2 then 0 else 11 - r;
  }

  /** `isValidCNPJ`. */
  method IsValidCNPJ(raw: string) returns (ok: bool)
    ensures ok == CnpjValid(raw)
  {
    var cnpj := OnlyDigits(raw);
    if |cnpj| != 14 || AllSame(cnpj) {
      return false;
    }
    var d1 := Calc(cnpj, 12);
    var d2 := Calc(cnpj, 13);
    return d1 == DigitValue(cnpj[12]) && d2 == DigitValue(cnpj[13]);
  }

  // ---------------------------------------------------------------------------
  // Properties
  // ---------------------------------------------------------------------------

  /** The weights the counting-down `pos` produces are the published tables:
      5,4,3,2,9,8,7,6,5,4,3,2 for the first check digit and 6 followed by that table for
      the second. */
  lemma CnpjWeightTables()
    ensures forall i :: 0 <= i < 12 ==> CnpjWeight(12, i) == [5, 4, 3, 2, 9, 8, 7, 6, 5, 4, 3, 2][i]
    ensures forall i :: 0 <= i < 13 ==> CnpjWeight(13, i) == [6, 5, 4, 3, 2, 9, 8, 7, 6, 5, 4, 3, 2][i]
  {
  }

  /** The two ways of turning a remainder into a check digit agree on every non-negative sum. */
  lemma CheckDigitRulesAgree(sum: int)
    requires sum >= 0
    ensures CpfCheckDigit(sum) == CnpjCheckDigit(sum)
  {
  }

  /** A number whose digits are all the same is never a valid CPF or CNPJ, whatever its
      check digits; in particular "00000000000" and "11111111111111" are rejected. */
  lemma RepeatedDigitsRejected(raw: string)
    requires AllSame(OnlyDigits(raw))
    ensures !CpfValid(raw) && !CnpjValid(raw)
  {
  }

  lemma ZerosAndOnesRejected(zeros: string, ones: string)
    requires zeros == "00000000000" && ones == "11111111111111"
    ensures !CpfValid(zeros) && !CnpjValid(ones)
  {
    assert zeros == seq(11, _ => '0');
    assert ones == seq(14, _ => '1');
    OnlyDigitsOfDigits(zeros);
    OnlyDigitsOfDigits(ones);
    RepeatedDigitsRejected(zeros);
    RepeatedDigitsRejected(ones);
  }

  /** Only the digits decide: a formatted number and its bare digits get the same verdict. */
  lemma DocumentsIgnoreFormatting(raw: string)
    ensures CpfValid(raw) == CpfValid(OnlyDigits(raw))
    ensures CnpjValid(raw) == CnpjValid(OnlyDigits(raw))
  {
    OnlyDigitsIdempotent(raw);
  }

  /** A valid CPF has exactly 11 digits, a valid CNPJ exactly 14. */
  lemma ValidLengths(raw: string)
    ensures CpfValid(raw) ==> |OnlyDigits(raw)| == 11
    ensures CnpjValid(raw) ==> |OnlyDigits(raw)| == 14
  {
  }

  /** The weighted sums only look at the digits they sum. */
  lemma {:induction false} CnpjSumPrefix(a: string, b: string, n: nat, base: nat)
    requires AllDigits(a) && AllDigits(b) && n <= |a| && n <= |b| && n <= base <= 16
    requires a[..n] == b[..n]
    ensures CnpjSum(a, n, base) == CnpjSum(b, n, base)
  {
    if n > 0 {
      assert a[n - 1] == a[..n][n - 1] == b[..n][n - 1] == b[n - 1];
      assert a[..n - 1] == a[..n][..n - 1];
      assert b[..n - 1] == b[..n][..n - 1];
      CnpjSumPrefix(a, b, n - 1, base);
    }
  }

  /** The weighted sums of the worked CNPJ example, digit by digit. */
  lemma CnpjExampleFirstSum(s: string)
    requires s == "11222333000181"
    ensures AllDigits(s) && CnpjSum(s, 12, 12) == 102
  {
    assert AllDigits(s);
    assert CnpjSum(s, 1, 12) == 5;
    assert CnpjSum(s, 2, 12) == 9;
    assert CnpjSum(s, 3, 12) == 15;
    assert CnpjSum(s, 4, 12) == 19;
    assert CnpjSum(s, 5, 12) == 37;
    assert CnpjSum(s, 6, 12) == 61;
    assert CnpjSum(s, 7, 12) == 82;
    assert CnpjSum(s, 8, 12) == 100;
    assert CnpjSum(s, 9, 12) == 100;
    assert CnpjSum(s, 10, 12) == 100;
    assert CnpjSum(s, 11, 12) == 100;
  }

  lemma CnpjExampleSecondSum(s: string)
    requires s == "11222333000181"
    ensures AllDigits(s) && CnpjSum(s, 13, 13) == 120
  {
    assert AllDigits(s);
    assert CnpjSum(s, 1, 13) == 6;
    assert CnpjSum(s, 2, 13) == 11;
    assert CnpjSum(s, 3, 13) == 19;
    assert CnpjSum(s, 4, 13) == 25;
    assert CnpjSum(s, 5, 13) == 29;
    assert CnpjSum(s, 6, 13) == 56;
    assert CnpjSum(s, 7, 13) == 80;
    assert CnpjSum(s, 8, 13) == 101;
    assert CnpjSum(s, 9, 13) == 101;
    assert CnpjSum(s, 10, 13) == 101;
    assert CnpjSum(s, 11, 13) == 101;
    assert CnpjSum(s, 12, 13) == 104;
  }

  /** The CNPJ rule on a string of 14 digits, once its two weighted sums are known. */
  lemma CnpjValidOfDigits(cnpj: string, sum1: int, sum2: int)
    requires AllDigits(cnpj) && |cnpj| == 14
    requires CnpjSum(cnpj, 12, 12) == sum1 && CnpjSum(cnpj, 13, 13) == sum2
    ensures CnpjValid(cnpj) <==> (!AllSame(cnpj) && CnpjCheckDigit(sum1) == DigitValue(cnpj[12])
                                   && CnpjCheckDigit(sum2) == DigitValue(cnpj[13]))
  {
    OnlyDigitsOfDigits(cnpj);
  }

  /** Worked example: the CNPJ 11.222.333/0001-81 is accepted. */
  lemma KnownCnpjAccepted(cnpj: string)
    requires cnpj == "11222333000181"
    ensures CnpjValid(cnpj)
  {
    CnpjExampleFirstSum(cnpj);
    CnpjExampleSecondSum(cnpj);
    CnpjValidOfDigits(cnpj, 102, 120);
    assert cnpj[1] != cnpj[2];
    assert cnpj[12] == '8' && cnpj[13] == '1';
  }

  /** Changing the last digit of that CNPJ makes it invalid. */
  lemma AlteredCnpjRejected(cnpj: string)
    requires cnpj == "11222333000182"
    ensures !CnpjValid(cnpj)
  {
    var known := "11222333000181";
    CnpjExampleSecondSum(known);
    assert AllDigits(cnpj);
    assert cnpj[..13] == known[..13];
    CnpjSumPrefix(cnpj, known, 13, 13);
    CnpjValidOfDigits(cnpj, CnpjSum(cnpj, 12, 12), 120);
    assert cnpj[13] == '2';
  }

  /** The weighted sums of the worked CPF example, digit by digit; they do not involve the
      last digit. */
  lemma CpfExampleSums(s: string)
    requires s == "52998224725" || s == "52998224724"
    ensures AllDigits(s) && CpfSum(s, 9, 10) == 295 && CpfSum(s, 10, 11) == 347
  {
    assert AllDigits(s);
    assert CpfSum(s, 1, 10) == 50;
    assert CpfSum(s, 2, 10) == 68;
    assert CpfSum(s, 3, 10) == 140;
    assert CpfSum(s, 4, 10) == 203;
    assert CpfSum(s, 5, 10) == 251;
    assert CpfSum(s, 6, 10) == 261;
    assert CpfSum(s, 7, 10) == 269;
    assert CpfSum(s, 8, 10) == 281;
    assert CpfSum(s, 1, 11) == 55;
    assert CpfSum(s, 2, 11) == 75;
    assert CpfSum(s, 3, 11) == 156;
    assert CpfSum(s, 4, 11) == 228;
    assert CpfSum(s, 5, 11) == 284;
    assert CpfSum(s, 6, 11) == 296;
    assert CpfSum(s, 7, 11) == 306;
    assert CpfSum(s, 8, 11) == 322;
    assert CpfSum(s, 9, 11) == 343;
  }

  /** The CPF rule on a string of 11 digits, once its two weighted sums are known. */
  lemma CpfValidOfDigits(cpf: string, sum1: int, sum2: int)
    requires AllDigits(cpf) && |cpf| == 11
    requires CpfSum(cpf, 9, 10) == sum1 && CpfSum(cpf, 10, 11) == sum2
    ensures CpfValid(cpf) <==> (!AllSame(cpf) && CpfCheckDigit(sum1) == DigitValue(cpf[9])
                                 && CpfCheckDigit(sum2) == DigitValue(cpf[10]))
  {
    OnlyDigitsOfDigits(cpf);
  }

  /** Worked example: the CPF 529.982.247-25 is accepted. */
  lemma KnownCpfAccepted(cpf: string)
    requires cpf == "52998224725"
    ensures CpfValid(cpf)
  {
    CpfExampleSums(cpf);
    CpfValidOfDigits(cpf, 295, 347);
    assert cpf[0] != cpf[1];
    assert cpf[9] == '2' && cpf[10] == '5';
  }

  /** Changing the last digit of that CPF makes it invalid. */
  lemma AlteredCpfRejected(cpf: string)
    requires cpf == "52998224724"
    ensures !CpfValid(cpf)
  {
    CpfExampleSums(cpf);
    CpfValidOfDigits(cpf, 295, 347);
    assert cpf[10] == '4';
  }
}
