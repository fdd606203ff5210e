/** The CPF check (Cadastro de Pessoas Fisicas, the Brazilian taxpayer number):
    eleven digits of which the last two are weighted mod-11 check digits over
    the ones before them. `IsCpf` is the validator of the person tests, step by
    step; `IsCpfSpec` states its outcome in closed form; `ReferenceValid` is the
    rule as it is usually published, and `IsCpfMatchesReference` ties the two. */
module Cpf {
  import opened Text

  /** `IsCpf` either returns a boolean or, when int.Parse meets a character
      that is not a digit, throws a FormatException. */
  datatype IsCpfOutcome = Returns(value: bool) | FormatException

  /** The weights of the first and of the second check digit. */
  const Multiplicador1: seq<int> := [10, 9, 8, 7, 6, 5, 4, 3, 2]
  const Multiplicador2: seq<int> := [11, 10, 9, 8, 7, 6, 5, 4, 3, 2]

  /** The one-character strings int.Parse turns into a number. */
  predicate IsDigit(c: char) {
    '0' <= c <= '9'
  }

  predicate AllDigits(s: string) {
    forall k :: 0 <= k < |s| ==> IsDigit(s[k])
  }

  /** int.Parse(c.ToString()) for a digit c. */
  function DigitValue(c: char): (v: int)
    requires IsDigit(c)
    ensures 0 <= v <= 9
  {
    (c as int) - ('0' as int)
  }

  /** d.ToString() for 0 <= d <= 9: a single digit that parses back to d. */
  function DigitChar(d: int): (c: char)
    requires 0 <= d <= 9
    ensures IsDigit(c) && DigitValue(c) == d
  {
    (('0' as int) + d) as char
  }

  lemma DigitCharOfValue(c: char)
    requires IsDigit(c)
    ensures DigitChar(DigitValue(c)) == c
  {
  }

  /** The text the digits are read from: trimmed, then every '.' and every '-' removed. */
  function Clean(s: string): (r: string)
    ensures |r| <= |s|
  {
    Remove(Remove(Trim(s), '.'), '-')
  }

  /** No separator survives the cleaning. */
  lemma CleanHasNoSeparators(s: string)
    ensures '.' !in Clean(s) && '-' !in Clean(s)
  {
    var t := Remove(Trim(s), '.');
    assert '.' !in t;
    RemoveKeepsAbsence(t, '-', '.');
  }

  /** The cleaning changes a string exactly when it makes it shorter. */
  lemma CleanKeepsLength(s: string)
    requires |Clean(s)| == |s|
    ensures Clean(s) == s
  {
    var t := Trim(s);
    var u := Remove(t, '.');
    TrimKeepsLength(s);
    RemoveKeepsLength(t, '.');
    RemoveKeepsLength(u, '-');
  }

  /** The first n characters of s are digits. */
  predicate DigitsBefore(s: string, n: int) {
    forall k :: 0 <= k < n && k < |s| ==> IsDigit(s[k])
  }

  /** The sum of digit k times weight k over the first n digits of s. */
  function WeightedSum(s: string, pesos: seq<int>, n: nat): (soma: int)
    requires n <= |s| && n <= |pesos| && DigitsBefore(s, n)
  {
    if n == 0 then 0
    else WeightedSum(s, pesos, n - 1) + DigitValue(s[n - 1]) * pesos[n - 1]
  }

  /** (10 * n) mod 11 depends on n only through n mod 11. */
  lemma TenfoldMod(n: int)
    ensures (10 * n) % 11 == (10 * (n % 11)) % 11
  {
    var q, r := n / 11, n % 11;
    assert 10 * n == 11 * (10 * q) + 10 * r;
  }

  /** The check digit of a weighted sum: remainder 0 or 1 gives 0, any other
      remainder r gives 11 - r, which is again a decimal digit. */
  function CheckDigit(soma: int): (d: int)
    ensures 0 <= d <= 9
  {
    var resto := soma % 11;
    if resto < 2 then 0 else 11 - resto
  }

  /** The check digit agrees with the other usual formulation of the rule,
      (10 * sum) mod 11 mod 10. */
  lemma CheckDigitTenfold(soma: int)
    ensures CheckDigit(soma) == (10 * soma) % 11 % 10
  {
    var resto := soma % 11;
    TenfoldMod(soma);
    assert resto in {0, 1, 2, 3, 4, 5, 6, 7, 8, 9, 10};
  }

  /** The two check digits of nine base digits, as the string the validator
      builds: the first from the base with weights 10 down to 2, the second
      from the base followed by the first with weights 11 down to 2. */
  function DigitosVerificadores(base: string): (dv: string)
    requires |base| == 9 && AllDigits(base)
    ensures |dv| == 2 && AllDigits(dv)
  {
    var d1 := CheckDigit(WeightedSum(base, Multiplicador1, 9));
    var ext := base + [DigitChar(d1)];
    var d2 := CheckDigit(WeightedSum(ext, Multiplicador2, 10));
    [DigitChar(d1), DigitChar(d2)]
  }

  /** What `IsCpf(input)` does, in closed form. */
  function IsCpfSpec(input: string): IsCpfOutcome {
    var cpf := Clean(input);
    if |cpf| != 11 then Returns(false)
    else if !DigitsBefore(cpf, 9) then FormatException
    else Returns(cpf[9..] == DigitosVerificadores(cpf[..9]))
  }

  /** The CPF validator of the person tests. Each int.Parse of a character is
      modelled as a digit test that either yields the digit's value or ends
      the call with FormatException. */
  method IsCpf(cpfInput: string) returns (r: IsCpfOutcome)
    ensures r == IsCpfSpec(cpfInput)
  {
    var cpf := Trim(cpfInput);
    cpf := Remove(Remove(cpf, '.'), '-');
    if |cpf| != 11 {
      return Returns(false);
    }
    var tempCpf := cpf[..9];
    var soma := 0;
    for i := 0 to 9
      invariant DigitsBefore(tempCpf, i)
      invariant soma == WeightedSum(tempCpf, Multiplicador1, i)
    {
      if !IsDigit(tempCpf[i]) {
        return FormatException;
      }
      soma := soma + DigitValue(tempCpf[i]) * Multiplicador1[i];
    }
    ghost var base := tempCpf;
    var resto := soma % 11;
    if resto < 2 {
      resto := 0;
    } else {
      resto := 11 - resto;
    }
    var digito := [DigitChar(resto)];
    tempCpf := tempCpf + digito;
    assert AllDigits(tempCpf);
    soma := 0;
    for i := 0 to 10
      invariant soma == WeightedSum(tempCpf, Multiplicador2, i)
    {
      soma := soma + DigitValue(tempCpf[i]) * Multiplicador2[i];
    }
    resto := soma % 11;
    if resto < 2 {
      resto := 0;
    } else {
      resto := 11 - resto;
    }
    digito := digito + [DigitChar(resto)];
    assert digito == DigitosVerificadores(base);
    return Returns(EndsWith(cpf, digito));
  }

  // ---------------------------------------------------------------------------
  // The rule as usually published, and its agreement with the validator.

  /** The first sum of the published rule: digits 0 to 8 with weights 10 down to 2. */
  function Soma1(c: string): int
    requires |c| >= 9 && DigitsBefore(c, 9)
  {
    10 * DigitValue(c[0]) + 9 * DigitValue(c[1]) + 8 * DigitValue(c[2]) +
    7 * DigitValue(c[3]) + 6 * DigitValue(c[4]) + 5 * DigitValue(c[5]) +
    4 * DigitValue(c[6]) + 3 * DigitValue(c[7]) + 2 * DigitValue(c[8])
  }

  /** The second sum of the published rule: digits 0 to 9 with weights 11 down to 2. */
  function Soma2(c: string): int
    requires |c| >= 10 && DigitsBefore(c, 10)
  {
    11 * DigitValue(c[0]) + 10 * DigitValue(c[1]) + 9 * DigitValue(c[2]) +
    8 * DigitValue(c[3]) + 7 * DigitValue(c[4]) + 6 * DigitValue(c[5]) +
    5 * DigitValue(c[6]) + 4 * DigitValue(c[7]) + 3 * DigitValue(c[8]) +
    2 * DigitValue(c[9])
  }

  /** Eleven digits form a valid CPF when the tenth is (10 * Soma1) mod 11
      mod 10 and the eleventh is (10 * Soma2) mod 11 mod 10, both sums taken
      over the digits as given. */
  predicate ReferenceValid(c: string)
    requires |c| == 11 && AllDigits(c)
  {
    DigitValue(c[9]) == (10 * Soma1(c)) % 11 % 10 &&
    DigitValue(c[10]) == (10 * Soma2(c)) % 11 % 10
  }

  /** The loop's sum with the first weight table is the first published sum. */
  lemma WeightedSumIsSoma1(s: string)
    requires |s| >= 9 && DigitsBefore(s, 9)
    ensures WeightedSum(s, Multiplicador1, 9) == Soma1(s)
  {
    assert WeightedSum(s, Multiplicador1, 1) == WeightedSum(s, Multiplicador1, 0) + 10 * DigitValue(s[0]);
    assert WeightedSum(s, Multiplicador1, 2) == WeightedSum(s, Multiplicador1, 1) + 9 * DigitValue(s[1]);
    assert WeightedSum(s, Multiplicador1, 3) == WeightedSum(s, Multiplicador1, 2) + 8 * DigitValue(s[2]);
    assert WeightedSum(s, Multiplicador1, 4) == WeightedSum(s, Multiplicador1, 3) + 7 * DigitValue(s[3]);
    assert WeightedSum(s, Multiplicador1, 5) == WeightedSum(s, Multiplicador1, 4) + 6 * DigitValue(s[4]);
    assert WeightedSum(s, Multiplicador1, 6) == WeightedSum(s, Multiplicador1, 5) + 5 * DigitValue(s[5]);
    assert WeightedSum(s, Multiplicador1, 7) == WeightedSum(s, Multiplicador1, 6) + 4 * DigitValue(s[6]);
    assert WeightedSum(s, Multiplicador1, 8) == WeightedSum(s, Multiplicador1, 7) + 3 * DigitValue(s[7]);
    assert WeightedSum(s, Multiplicador1, 9) == WeightedSum(s, Multiplicador1, 8) + 2 * DigitValue(s[8]);
  }

  /** The loop's sum with the second weight table is the second published sum. */
  lemma WeightedSumIsSoma2(s: string)
    requires |s| >= 10 && DigitsBefore(s, 10)
    ensures WeightedSum(s, Multiplicador2, 10) == Soma2(s)
  {
    assert WeightedSum(s, Multiplicador2, 1) == WeightedSum(s, Multiplicador2, 0) + 11 * DigitValue(s[0]);
    assert WeightedSum(s, Multiplicador2, 2) == WeightedSum(s, Multiplicador2, 1) + 10 * DigitValue(s[1]);
    assert WeightedSum(s, Multiplicador2, 3) == WeightedSum(s, Multiplicador2, 2) + 9 * DigitValue(s[2]);
    assert WeightedSum(s, Multiplicador2, 4) == WeightedSum(s, Multiplicador2, 3) + 8 * DigitValue(s[3]);
    assert WeightedSum(s, Multiplicador2, 5) == WeightedSum(s, Multiplicador2, 4) + 7 * DigitValue(s[4]);
    assert WeightedSum(s, Multiplicador2, 6) == WeightedSum(s, Multiplicador2, 5) + 6 * DigitValue(s[5]);
    assert WeightedSum(s, Multiplicador2, 7) == WeightedSum(s, Multiplicador2, 6) + 5 * DigitValue(s[6]);
    assert WeightedSum(s, Multiplicador2, 8) == WeightedSum(s, Multiplicador2, 7) + 4 * DigitValue(s[7]);
    assert WeightedSum(s, Multiplicador2, 9) == WeightedSum(s, Multiplicador2, 8) + 3 * DigitValue(s[8]);
    assert WeightedSum(s, Multiplicador2, 10) == WeightedSum(s, Multiplicador2, 9) + 2 * DigitValue(s[9]);
  }

  /** On eleven digits the validator answers exactly the published rule. The
      validator computes its second sum over the computed first check digit,
      the rule over the input's tenth digit; the two differ only when the first
      check already fails. */
  lemma IsCpfMatchesReference(input: string)
    requires |Clean(input)| == 11 && AllDigits(Clean(input))
    ensures IsCpfSpec(input) == Returns(ReferenceValid(Clean(input)))
  {
    var c := Clean(input);
    var base := c[..9];
    WeightedSumIsSoma1(base);
    var d1 := CheckDigit(WeightedSum(base, Multiplicador1, 9));
    CheckDigitTenfold(WeightedSum(base, Multiplicador1, 9));
    var ext := base + [DigitChar(d1)];
    WeightedSumIsSoma2(ext);
    CheckDigitTenfold(WeightedSum(ext, Multiplicador2, 10));
    DigitCharOfValue(c[9]);
    DigitCharOfValue(c[10]);
    assert Soma1(base) == Soma1(c);
    if c[9] == DigitChar(d1) {
      assert ext == c[..10];
      assert Soma2(ext) == Soma2(c);
    }
  }

  // ---------------------------------------------------------------------------
  // Behaviour at the edges.

  /** When the validator throws, and what an accepted input looks like: its
      cleaned text is exactly eleven ASCII digits. A non-digit in one of the
      last two places therefore only makes the answer false. */
  lemma IsCpfOutcomes(input: string)
    ensures var c := Clean(input);
      IsCpfSpec(input) == FormatException <==>
        |c| == 11 && exists k :: 0 <= k < 9 && !IsDigit(c[k])
    ensures IsCpfSpec(input) == Returns(true) ==>
      |Clean(input)| == 11 && AllDigits(Clean(input))
  {
    var c := Clean(input);
    if |c| == 11 && DigitsBefore(c, 9) && IsCpfSpec(input) == Returns(true) {
      var dv := DigitosVerificadores(c[..9]);
      assert c[9] == dv[0] && c[10] == dv[1];
    }
  }

  /** Any cleaned length other than eleven is a plain false. */
  lemma WrongLengthIsFalse(input: string)
    requires |Clean(input)| != 11
    ensures IsCpfSpec(input) == Returns(false)
  {
  }

  /** A string made only of digits is left as it is by the cleaning. */
  lemma CleanDigits(s: string)
    requires AllDigits(s)
    ensures Clean(s) == s
  {
    TrimNoOp(s);
    assert '.' !in s && '-' !in s;
  }

  /** Removing both separators from a + [sep] + b gives what removing them
      from a + b gives. */
  lemma RemoveSeparatorsInsert(a: string, b: string, sep: char)
    requires sep == '.' || sep == '-'
    ensures Remove(Remove(a + [sep] + b, '.'), '-') == Remove(Remove(a + b, '.'), '-')
  {
    var ra, rb := Remove(a, '.'), Remove(b, '.');
    RemoveInsert(a, b, sep, '.');
    RemoveConcat(a, b, '.');
    if sep == '.' {
      assert Remove(a + [sep] + b, '.') == ra + rb;
    } else {
      assert Remove(a + [sep] + b, '.') == ra + [sep] + rb;
      RemoveInsert(ra, rb, sep, '-');
      RemoveConcat(ra, rb, '-');
    }
  }

  /** Putting a '.' or a '-' anywhere into a string that has no white space at
      its ends leaves its cleaned text as it was. */
  lemma CleanIgnoresSeparator(s: string, k: nat, sep: char)
    requires k <= |s| && (sep == '.' || sep == '-')
    requires s == [] || (!IsWhiteSpace(s[0]) && !IsWhiteSpace(s[|s| - 1]))
    ensures Clean(s[..k] + [sep] + s[k..]) == Clean(s)
  {
    var a, b := s[..k], s[k..];
    var t := a + [sep] + b;
    assert s == a + b;
    assert t[0] == (if a == [] then sep else s[0]);
    assert t[|t| - 1] == (if b == [] then sep else s[|s| - 1]);
    TrimNoOp(s);
    TrimNoOp(t);
    RemoveSeparatorsInsert(a, b, sep);
  }

  /** Hence the validator gives the same answer with or without the separator. */
  lemma SeparatorIgnored(s: string, k: nat, sep: char)
    requires k <= |s| && (sep == '.' || sep == '-')
    requires s == [] || (!IsWhiteSpace(s[0]) && !IsWhiteSpace(s[|s| - 1]))
    ensures IsCpfSpec(s[..k] + [sep] + s[k..]) == IsCpfSpec(s)
  {
    CleanIgnoresSeparator(s, k, sep);
  }

  // ---------------------------------------------------------------------------
  // The fixtures of the person tests.

  /** An eleven-digit string is accepted exactly when the published rule holds. */
  lemma DigitsAcceptedIff(s: string)
    requires |s| == 11 && AllDigits(s)
    ensures IsCpfSpec(s) == Returns(ReferenceValid(s))
  {
    CleanDigits(s);
    IsCpfMatchesReference(s);
  }

  // One lemma per fixture: stated together, the literal sums make one proof
  // obligation too large.

  /** The CPF of the fixture person "nomeum" passes. */
  lemma FixtureNomeUmAccepted()
    ensures IsCpfSpec("09519964797") == Returns(true)
  {
    assert AllDigits("09519964797") && ReferenceValid("09519964797");
    DigitsAcceptedIff("09519964797");
  }

  /** The CPF of the fixture person "nomedois" passes. */
  lemma FixtureNomeDoisAccepted()
    ensures IsCpfSpec("37958496249") == Returns(true)
  {
    assert AllDigits("37958496249") && ReferenceValid("37958496249");
    DigitsAcceptedIff("37958496249");
  }

  /** The CPF of the fixture person "nometres" passes. */
  lemma FixtureNomeTresAccepted()
    ensures IsCpfSpec("51651114749") == Returns(true)
  {
    assert AllDigits("51651114749") && ReferenceValid("51651114749");
    DigitsAcceptedIff("51651114749");
  }

  /** The CPF of the fixture person "nomequatro" passes. */
  lemma FixtureNomeQuatroAccepted()
    ensures IsCpfSpec("07426597717") == Returns(true)
  {
    assert AllDigits("07426597717") && ReferenceValid("07426597717");
    DigitsAcceptedIff("07426597717");
  }

  /** The CPF of the fixture person "nomecinco" passes. */
  lemma FixtureNomeCincoAccepted()
    ensures IsCpfSpec("86235974604") == Returns(true)
  {
    assert AllDigits("86235974604") && ReferenceValid("86235974604");
    DigitsAcceptedIff("86235974604");
  }

  /** The CPF of the new person of the duplicate test passes. */
  lemma NovaPessoaAccepted()
    ensures IsCpfSpec("46323486008") == Returns(true)
  {
    assert AllDigits("46323486008") && ReferenceValid("46323486008");
    DigitsAcceptedIff("46323486008");
  }

  /** The CPF the length-and-digits test uses as its invalid case fails. */
  lemma InvalidFixtureRejected()
    ensures IsCpfSpec("67812345377") == Returns(false)
  {
    assert AllDigits("67812345377") && !ReferenceValid("67812345377");
    DigitsAcceptedIff("67812345377");
  }
}
