/** The registration rules the person tests check inline: a valid CPF of
    eleven characters, no second person with the same CPF, no one under 18,
    and a gender of 'F' or 'M'. Each check that throws becomes a `Reprovada`
    verdict naming the exception. The `Valida…` methods follow the tests'
    statements on `Pessoa` objects; the `Verificacao…` functions state their
    outcome in closed form. */
module PessoaChecks {
  import opened Text
  import opened Calendar
  import opened Cpf
  import opened Age
  import opened Entities

  /** The exceptions the checks throw. */
  datatype Falha =
    | CpfFormato       // FormatException, thrown by int.Parse inside IsCpf
    | CpfComprimento   // "CPF deve conter 11 dígitos!"
    | CpfInvalido      // "CPF inválido!"
    | CpfJaCadastrado  // "Cpf já cadastrado!"
    | MenorDeIdade     // "Não é permitido cadastro de pessoas menores de 18 anos."
    | GeneroVazio      // "Genero nulo ou vazio"
    | GeneroInvalido   // "Genero inválido! Diferente de (F/M)"

  datatype Verificacao = Aprovada | Reprovada(falha: Falha)

  // ---------------------------------------------------------------------------
  // CPF of one person: IsCpf first, then the raw length, then IsCpf's answer.

  function VerificacaoCpf(cpf: string): Verificacao {
    match IsCpfSpec(cpf)
    case FormatException => Reprovada(CpfFormato)
    case Returns(result) =>
      if |cpf| != 11 then Reprovada(CpfComprimento)
      else if !result then Reprovada(CpfInvalido)
      else Aprovada
  }

  /** The CPF check of the person tests on `pessoa.cpf`. */
  method ValidaCpf(pessoa: Pessoa) returns (v: Verificacao)
    ensures v == VerificacaoCpf(pessoa.cpf)
  {
    var result := IsCpf(pessoa.cpf);
    if result == FormatException {
      return Reprovada(CpfFormato);
    }
    if |pessoa.cpf| != 11 {
      return Reprovada(CpfComprimento);
    }
    if !result.value {
      return Reprovada(CpfInvalido);
    }
    return Aprovada;
  }

  /** A CPF passes exactly when it is eleven ASCII digits whose check digits
      satisfy the published rule: the length test leaves no room for white
      space or separators, although IsCpf alone would ignore them. */
  lemma VerificacaoCpfAprovadaIff(cpf: string)
    ensures VerificacaoCpf(cpf) == Aprovada <==>
      |cpf| == 11 && AllDigits(cpf) && ReferenceValid(cpf)
  {
    IsCpfOutcomes(cpf);
    if VerificacaoCpf(cpf) == Aprovada {
      CleanKeepsLength(cpf);
    }
    if |cpf| == 11 && AllDigits(cpf) {
      DigitsAcceptedIff(cpf);
    }
  }

  /** A valid CPF written with one separator is one IsCpf accepts, yet the
      check rejects it on its length. */
  lemma FormattedCpfFailsLength(s: string, k: nat, sep: char)
    requires |s| == 11 && AllDigits(s) && ReferenceValid(s)
    requires k <= 11 && (sep == '.' || sep == '-')
    ensures IsCpfSpec(s[..k] + [sep] + s[k..]) == Returns(true)
    ensures VerificacaoCpf(s[..k] + [sep] + s[k..]) == Reprovada(CpfComprimento)
  {
    assert IsDigit(s[0]) && IsDigit(s[10]);
    SeparatorIgnored(s, k, sep);
    DigitsAcceptedIff(s);
  }

  // ---------------------------------------------------------------------------
  // A new person's CPF against an existing person's.

  function VerificacaoNovoCpf(existente: string, nova: string): Verificacao {
    match IsCpfSpec(nova)
    case FormatException => Reprovada(CpfFormato)
    case Returns(result) =>
      if !result then Reprovada(CpfInvalido)
      else if existente == nova then Reprovada(CpfJaCadastrado)
      else Aprovada
  }

  /** The duplicate-CPF check of the person tests. */
  method ValidaNovoCpf(pessoaExistente: Pessoa, pessoaNova: Pessoa) returns (v: Verificacao)
    ensures v == VerificacaoNovoCpf(pessoaExistente.cpf, pessoaNova.cpf)
  {
    var result := IsCpf(pessoaNova.cpf);
    if result == FormatException {
      return Reprovada(CpfFormato);
    }
    if !result.value {
      return Reprovada(CpfInvalido);
    }
    if pessoaExistente.cpf == pessoaNova.cpf {
      return Reprovada(CpfJaCadastrado);
    }
    return Aprovada;
  }

  /** A new CPF passes exactly when its cleaned text is a valid CPF and the
      text as entered differs from the existing one. */
  lemma VerificacaoNovoCpfAprovadaIff(existente: string, nova: string)
    ensures VerificacaoNovoCpf(existente, nova) == Aprovada <==>
      (|Clean(nova)| == 11 && AllDigits(Clean(nova)) && ReferenceValid(Clean(nova))) &&
      existente != nova
  {
    IsCpfOutcomes(nova);
    if |Clean(nova)| == 11 && AllDigits(Clean(nova)) {
      IsCpfMatchesReference(nova);
    }
  }

  /** The comparison is on the text as entered: the same valid number, once
      bare and once with a separator, is not seen as a duplicate. */
  lemma DuplicateDetectedOnlyVerbatim(s: string, k: nat, sep: char)
    requires |s| == 11 && AllDigits(s) && ReferenceValid(s)
    requires k <= 11 && (sep == '.' || sep == '-')
    ensures VerificacaoNovoCpf(s, s) == Reprovada(CpfJaCadastrado)
    ensures Clean(s[..k] + [sep] + s[k..]) == Clean(s)
    ensures VerificacaoNovoCpf(s, s[..k] + [sep] + s[k..]) == Aprovada
  {
    var t := s[..k] + [sep] + s[k..];
    assert IsDigit(s[0]) && IsDigit(s[10]);
    CleanIgnoresSeparator(s, k, sep);
    SeparatorIgnored(s, k, sep);
    DigitsAcceptedIff(s);
    assert |t| == 12;
  }

  // ---------------------------------------------------------------------------
  // Minimum age.

  /** The age check at instant `now`: under 18 by the Idade rule is refused.
      It passes when the birth year lies more than 18 years back, or exactly
      18 years back with the birth's ordinal day already reached. */
  function VerificacaoIdade(dataNascimento: DateTime, now: DateTime): (v: Verificacao)
    ensures v == Aprovada <==>
      now.year - dataNascimento.year > 18 ||
      (now.year - dataNascimento.year == 18 && DayOfYear(dataNascimento) <= DayOfYear(now))
    ensures v != Aprovada ==> v == Reprovada(MenorDeIdade)
  {
    if AgeAt(dataNascimento, now) < 18 then Reprovada(MenorDeIdade) else Aprovada
  }

  /** The age check of the person tests, reading the Idade getter. */
  method ValidaIdade(pessoa: Pessoa, now: DateTime) returns (v: Verificacao)
    modifies pessoa`idade
    ensures v == VerificacaoIdade(pessoa.dataNascimento, now)
    ensures pessoa.idade == AgeAt(pessoa.dataNascimento, now)
  {
    var idade := pessoa.Idade(now);
    if idade < 18 {
      return Reprovada(MenorDeIdade);
    }
    return Aprovada;
  }

  /** Between years of the same leap status the check is the calendar one:
      it passes from the 18th birthday on. */
  lemma VerificacaoIdadeByCalendar(dataNascimento: DateTime, now: DateTime)
    requires IsLeapYear(dataNascimento.year) == IsLeapYear(now.year)
    ensures VerificacaoIdade(dataNascimento, now) == Aprovada <==>
      CalendarAge(dataNascimento, now) >= 18
  {
    AgeAgreesWithCalendarAge(dataNascimento, now);
  }

  /** Born in a common year, one passes on the 18th birthday, with an age of
      exactly 18, which the tests' later assertion Idade > 18 does not admit. */
  lemma ApprovedAtEighteen(dataNascimento: DateTime, now: DateTime)
    requires !IsLeapYear(dataNascimento.year)
    requires now.year == dataNascimento.year + 18
    requires now.month == dataNascimento.month && now.day == dataNascimento.day
    ensures VerificacaoIdade(dataNascimento, now) == Aprovada
    ensures AgeAt(dataNascimento, now) == 18
  {
    CommonYearBirthday(dataNascimento, now);
  }

  /** Born on 1 March 2004, a leap year, one is still refused on the 18th
      birthday, 1 March 2022: day 60 of 2022 comes before day 61 of 2004. */
  lemma LeapBirthRefusedAtEighteen()
    ensures CalendarAge(Date(2004, 3, 1), Date(2022, 3, 1)) == 18
    ensures AgeAt(Date(2004, 3, 1), Date(2022, 3, 1)) == 17
    ensures VerificacaoIdade(Date(2004, 3, 1), Date(2022, 3, 1)) == Reprovada(MenorDeIdade)
  {
    FirstOfMarch(2004);
    FirstOfMarch(2022);
  }

  /** Born after February in a leap year, one is refused on the 18th
      birthday, where the calendar age is 18: that birthday falls in a common
      year, so its ordinal day is one less than the birth's. */
  lemma LeapBirthRefusedOnBirthday(dataNascimento: DateTime, now: DateTime)
    requires IsLeapYear(dataNascimento.year) && dataNascimento.month >= 3
    requires now.year == dataNascimento.year + 18
    requires now.month == dataNascimento.month && now.day == dataNascimento.day
    ensures CalendarAge(dataNascimento, now) == 18
    ensures AgeAt(dataNascimento, now) == 17
    ensures VerificacaoIdade(dataNascimento, now) == Reprovada(MenorDeIdade)
  {
    DayOfYearShift(dataNascimento);
    DayOfYearShift(now);
  }

  // ---------------------------------------------------------------------------
  // Gender.

  /** The gender check: white space is reported as missing, anything but 'F'
      or 'M' as invalid. */
  function VerificacaoGenero(genero: char): (v: Verificacao)
    ensures v == Aprovada <==> genero == 'F' || genero == 'M'
    ensures IsWhiteSpace(genero) ==> v == Reprovada(GeneroVazio)
    ensures !IsWhiteSpace(genero) && v != Aprovada ==> v == Reprovada(GeneroInvalido)
  {
    if IsWhiteSpace(genero) then Reprovada(GeneroVazio)
    else if genero != 'F' && genero != 'M' then Reprovada(GeneroInvalido)
    else Aprovada
  }

  /** The gender check of the person tests on `pessoa.genero`. */
  method ValidaGenero(pessoa: Pessoa) returns (v: Verificacao)
    ensures v == VerificacaoGenero(pessoa.genero)
  {
    if IsWhiteSpace(pessoa.genero) {
      return Reprovada(GeneroVazio);
    }
    if pessoa.genero != 'F' && pessoa.genero != 'M' {
      return Reprovada(GeneroInvalido);
    }
    return Aprovada;
  }
}
