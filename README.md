# ControlePessoas in Dafny

A model of the core of ControlePessoas, a C# person-registration project.
The core has two parts:

- The domain entities `BaseEntity`, `Pessoa` and `Endereco`.
- The registration rules that the unit tests of those entities check
  inline:
  - the CPF validator `IsCpf` (the Brazilian taxpayer number; its last two
    digits are mod-11 check digits);
  - the age computation `CalculaIdade` and the `Idade` getter;
  - the rules against minors, a second person with the same CPF, a gender
    other than F/M, and two addresses of the same kind for the same person.

Files:

- `Calendar.dfy`: the part of `System.DateTime` the core uses, namely valid
  dates, the Gregorian leap rule and `DayOfYear`.
- `Text.dfy`: `String.Trim`, `Replace(x, "")` for one character, and an
  ordinal `EndsWith`.
- `Cpf.dfy`: `IsCpf` as an imperative method with its two loops. Beside it:
  - `IsCpfSpec`, its closed form;
  - the published CPF rule, `ReferenceValid`;
  - lemmas that tie the three together, describe the exception and the
    false cases, and cover the fixture CPFs.
- `Age.dfy`: the ordinal-day age rule, `CalculaIdade`, and how the rule
  relates to the calendar age.
- `Entities.dfy`: the three entities as classes.
  - A property whose private setter is never called is a `const`; a
    property that something assigns is a `var`.
  - Inheritance becomes an owned `base` object.
  - The nine public setters of `Endereco` are its writable fields.
- `PessoaChecks.dfy` and `EnderecoChecks.dfy`: the inline checks of the two
  test classes.
  - A thrown exception becomes a `Reprovada` verdict.
  - Each check is a method over the entity objects, plus a function for
    its outcome in closed form.
  - Lemmas characterise each check in both directions.
- `Scenarios.dfy`: the test bodies on their fixture objects.
  - A random pick is an index parameter.
  - `DateTime.Now` is a `now` parameter throughout.

Notable consequences of the code:

- The person CPF check looks at the raw length before IsCpf's answer. A CPF
  written with '.' or '-' is therefore refused, although IsCpf accepts it
  (`FormattedCpfFailsLength`).
- The duplicate check compares the text as entered. The same number with a
  separator is therefore not a duplicate (`DuplicateDetectedOnlyVerbatim`).
- The age rule compares ordinal days, not month and day. Across a leap year
  it can be a day late or early (`LateAfterLeapBirth`, `EarlyInLeapYear`).
- For someone born in a common year, the age check passes on the 18th
  birthday with an age of exactly 18, which the test's later assertion
  `Idade > 18` would not admit (`ApprovedAtEighteen`). Someone born after
  February in a leap year is still refused on the 18th birthday, which
  always falls in a common year (`LeapBirthRefusedOnBirthday`); for
  example, born 1 March 2004, refused on 1 March 2022
  (`LeapBirthRefusedAtEighteen`). In general the rule and the calendar age
  differ only on the birthday or the day before it (`AgeNearCalendarAge`).
- The five fixture addresses conflict pairwise under the address rule
  (`EnderecoListConflicts`).
- The duplicate-address test compares the existing address with the
  address it builds as valid, not with the one it calls invalid
  (`EnderecoDuplicadoTest`).

## Model

| member | source | states |
|---|---|---|
| Calendar.Date | ControlePessoas/ControlePessoas.UnitTests/Core/Entities/PessoaTests.cs:44-51 | new DateTime(y, m, d) for a valid date is midnight of that year, month and day |
| Calendar.DayOfYear | ControlePessoas/ControlePessoas.Core/Entities/Pessoa.cs:35 | DateTime.DayOfYear lies between 1 and the length of its year, 365 or 366 |
| Calendar.DayOfYearOrder | ControlePessoas/ControlePessoas.Core/Entities/Pessoa.cs:35 | between years of equal leap status, comparing ordinal days is comparing (month, day), in both directions |
| Calendar.FirstOfMarch | ControlePessoas/ControlePessoas.Core/Entities/Pessoa.cs:35 | 1 March is day 61 of a leap year and day 60 of a common year |
| Calendar.DaysBeforeMonthLeapShift | ControlePessoas/ControlePessoas.Core/Entities/Pessoa.cs:35 | a leap year has exactly one day more than a common year before each month from March on, and the same before January and February |
| Calendar.DayOfYearShift | ControlePessoas/ControlePessoas.Core/Entities/Pessoa.cs:35 | DateTime.DayOfYear is the common-year ordinal of (month, day), plus one from March on in a leap year |
| Calendar.CommonDayOfYearOrder | ControlePessoas/ControlePessoas.Core/Entities/Pessoa.cs:35 | an earlier (month, day) never has a larger common-year ordinal |
| Text.Trim | ControlePessoas/ControlePessoas.UnitTests/Core/Entities/PessoaTests.cs:253 | String.Trim() is TrimEnd after TrimStart over the modelled white-space set, and never lengthens its input |
| Text.TrimKeepsSlice | ControlePessoas/ControlePessoas.UnitTests/Core/Entities/PessoaTests.cs:253 | Trim keeps one slice of the input with white space at neither end and drops only white space around it |
| Text.TrimNoOp | ControlePessoas/ControlePessoas.UnitTests/Core/Entities/PessoaTests.cs:253 | Trim leaves a string with no white space at its ends unchanged |
| Text.TrimKeepsLength | ControlePessoas/ControlePessoas.UnitTests/Core/Entities/PessoaTests.cs:253 | a Trim that does not shorten its input returns it unchanged |
| Text.Remove | ControlePessoas/ControlePessoas.UnitTests/Core/Entities/PessoaTests.cs:254 | Replace(c, "") leaves no c, is no longer than its input, and is the identity when c does not occur |
| Text.RemoveCounts | ControlePessoas/ControlePessoas.UnitTests/Core/Entities/PessoaTests.cs:254 | Replace(c, "") keeps every other character as often as it occurred and drops every c |
| Text.RemoveKeepsAbsence | ControlePessoas/ControlePessoas.UnitTests/Core/Entities/PessoaTests.cs:254 | removing one character does not introduce another that was absent |
| Text.RemoveConcat | ControlePessoas/ControlePessoas.UnitTests/Core/Entities/PessoaTests.cs:254 | removal distributes over concatenation, so the kept characters keep their order |
| Text.RemoveKeepsLength | ControlePessoas/ControlePessoas.UnitTests/Core/Entities/PessoaTests.cs:254 | a removal that does not shorten its input removed nothing |
| Text.RemoveInsert | ControlePessoas/ControlePessoas.UnitTests/Core/Entities/PessoaTests.cs:254 | one inserted character is dropped when it is the one removed and kept in place otherwise |
| Text.EndsWith | ControlePessoas/ControlePessoas.UnitTests/Core/Entities/PessoaTests.cs:278 | s.EndsWith(suffix) under ordinal comparison: suffix is no longer than s and equals its last characters (definition) |
| Cpf.DigitValue | ControlePessoas/ControlePessoas.UnitTests/Core/Entities/PessoaTests.cs:261 | int.Parse of a digit character yields a value from 0 to 9 |
| Cpf.DigitChar | ControlePessoas/ControlePessoas.UnitTests/Core/Entities/PessoaTests.cs:267 | resto.ToString() for a check digit is one digit character that parses back to resto |
| Cpf.DigitCharOfValue | ControlePessoas/ControlePessoas.UnitTests/Core/Entities/PessoaTests.cs:267 | printing the parsed value of a digit gives the digit back |
| Cpf.Clean | ControlePessoas/ControlePessoas.UnitTests/Core/Entities/PessoaTests.cs:253-254 | the cleaned CPF text is no longer than the input |
| Cpf.CleanHasNoSeparators | ControlePessoas/ControlePessoas.UnitTests/Core/Entities/PessoaTests.cs:254 | no '.' and no '-' survives the cleaning |
| Cpf.CleanKeepsLength | ControlePessoas/ControlePessoas.UnitTests/Core/Entities/PessoaTests.cs:253-254 | the cleaning changes its input exactly when it shortens it |
| Cpf.CheckDigit | ControlePessoas/ControlePessoas.UnitTests/Core/Entities/PessoaTests.cs:262-266 | the remainder rule (0 for remainders below 2, else 11 minus the remainder) yields a decimal digit |
| Cpf.CheckDigitTenfold | ControlePessoas/ControlePessoas.UnitTests/Core/Entities/PessoaTests.cs:262-266 | the remainder rule equals (10 * sum) mod 11 mod 10, the other published form |
| Cpf.DigitosVerificadores | ControlePessoas/ControlePessoas.UnitTests/Core/Entities/PessoaTests.cs:257-277 | the two computed check digits form a two-character digit string |
| Cpf.IsCpfSpec | ControlePessoas/ControlePessoas.UnitTests/Core/Entities/PessoaTests.cs:245-279 | the validator's outcome in closed form: Returns(false) when the cleaned text is not 11 characters, FormatException when one of its first nine is not a digit, else Returns(whether its last two characters equal the two computed check digits) (definition) |
| Cpf.IsCpf | ControlePessoas/ControlePessoas.UnitTests/Core/Entities/PessoaTests.cs:245-279 | the validator, statement by statement, returns IsCpfSpec: false for a cleaned length other than 11, FormatException for a non-digit among the first nine, else whether the last two characters are the computed check digits |
| Cpf.WeightedSumIsSoma1 | ControlePessoas/ControlePessoas.UnitTests/Core/Entities/PessoaTests.cs:260-261 | the first loop's sum is 10*c0 + 9*c1 + ... + 2*c8 |
| Cpf.WeightedSumIsSoma2 | ControlePessoas/ControlePessoas.UnitTests/Core/Entities/PessoaTests.cs:270-271 | the second loop's sum is 11*c0 + 10*c1 + ... + 2*c9 |
| Cpf.IsCpfMatchesReference | ControlePessoas/ControlePessoas.UnitTests/Core/Entities/PessoaTests.cs:245-279 | on eleven digits the validator returns exactly the published mod-11 rule over the input's own digits |
| Cpf.IsCpfOutcomes | ControlePessoas/ControlePessoas.UnitTests/Core/Entities/PessoaTests.cs:255-261 | FormatException happens exactly when the cleaned length is 11 and one of the first nine is not a digit; an accepted input cleans to eleven ASCII digits |
| Cpf.WrongLengthIsFalse | ControlePessoas/ControlePessoas.UnitTests/Core/Entities/PessoaTests.cs:255-256 | any cleaned length other than 11 gives false |
| Cpf.CleanDigits | ControlePessoas/ControlePessoas.UnitTests/Core/Entities/PessoaTests.cs:253-254 | a string of digits is left as it is by the cleaning |
| Cpf.RemoveSeparatorsInsert | ControlePessoas/ControlePessoas.UnitTests/Core/Entities/PessoaTests.cs:254 | removing '.' and '-' from a + [sep] + b gives what it gives on a + b |
| Cpf.CleanIgnoresSeparator | ControlePessoas/ControlePessoas.UnitTests/Core/Entities/PessoaTests.cs:253-254 | inserting a '.' or '-' into a string without white space at its ends leaves the cleaned text unchanged |
| Cpf.SeparatorIgnored | ControlePessoas/ControlePessoas.UnitTests/Core/Entities/PessoaTests.cs:253-278 | inserting a '.' or '-' in that way leaves the validator's answer unchanged |
| Cpf.DigitsAcceptedIff | ControlePessoas/ControlePessoas.UnitTests/Core/Entities/PessoaTests.cs:245-279 | eleven digits are accepted exactly when the published rule holds |
| Cpf.FixtureNomeUmAccepted | ControlePessoas/ControlePessoas.UnitTests/Core/Entities/PessoaTests.cs:46 | the CPF of fixture person nomeum, 09519964797, is valid |
| Cpf.FixtureNomeDoisAccepted | ControlePessoas/ControlePessoas.UnitTests/Core/Entities/PessoaTests.cs:47 | the CPF of fixture person nomedois, 37958496249, is valid |
| Cpf.FixtureNomeTresAccepted | ControlePessoas/ControlePessoas.UnitTests/Core/Entities/PessoaTests.cs:48 | the CPF of fixture person nometres, 51651114749, is valid |
| Cpf.FixtureNomeQuatroAccepted | ControlePessoas/ControlePessoas.UnitTests/Core/Entities/PessoaTests.cs:49 | the CPF of fixture person nomequatro, 07426597717, is valid |
| Cpf.FixtureNomeCincoAccepted | ControlePessoas/ControlePessoas.UnitTests/Core/Entities/PessoaTests.cs:50 | the CPF of fixture person nomecinco, 86235974604, is valid |
| Cpf.NovaPessoaAccepted | ControlePessoas/ControlePessoas.UnitTests/Core/Entities/PessoaTests.cs:83 | the new person's CPF 46323486008 is valid |
| Cpf.InvalidFixtureRejected | ControlePessoas/ControlePessoas.UnitTests/Core/Entities/PessoaTests.cs:61 | the CPF the test names invalid, 67812345377, is rejected |
| Age.AgeAt | ControlePessoas/ControlePessoas.UnitTests/Core/Entities/PessoaTests.cs:234-242 | the age is the year difference or one less, and it is the year difference exactly when the birth's ordinal day has been reached |
| Age.CalculaIdade | ControlePessoas/ControlePessoas.UnitTests/Core/Entities/PessoaTests.cs:234-242 | the helper's local computation returns AgeAt |
| Age.AgeAgreesWithCalendarAge | ControlePessoas/ControlePessoas.Core/Entities/Pessoa.cs:34-38 | between years of equal leap status the rule gives the calendar age (one more on each birthday) |
| Age.AgeNearCalendarAge | ControlePessoas/ControlePessoas.Core/Entities/Pessoa.cs:34-38 | for any two years the rule and the calendar age differ by at most one, and only when today's common-year ordinal is the birthday's or the one before |
| Age.CommonYearBirthday | ControlePessoas/ControlePessoas.Core/Entities/Pessoa.cs:34-38 | born in a common year, the rule gives the full year difference on every birthday |
| Age.LateAfterLeapBirth | ControlePessoas/ControlePessoas.Core/Entities/Pessoa.cs:34-38 | born 1 March 2000, the rule gives 0 on the first birthday, where the calendar age is 1 |
| Age.EarlyInLeapYear | ControlePessoas/ControlePessoas.Core/Entities/Pessoa.cs:34-38 | born 1 March 2001, the rule gives 3 on 29 February 2004, where the calendar age is 2 |
| Age.AgeNonNegative | ControlePessoas/ControlePessoas.Core/Entities/Pessoa.cs:34-38 | from the day of birth on the age is never negative |
| Age.AgeMonotone | ControlePessoas/ControlePessoas.Core/Entities/Pessoa.cs:34-38 | the age never decreases as the current date advances |
| Age.AdultFixtures | ControlePessoas/ControlePessoas.UnitTests/Core/Entities/PessoaTests.cs:36-43 | the adult birth dates give ages above 18 whenever the current year is 2022 or later |
| Age.MinorFixtures | ControlePessoas/ControlePessoas.UnitTests/Core/Entities/PessoaTests.cs:28-35 | the minor birth dates give ages below 18 whenever the current year is 2021 or earlier |
| Entities.BaseEntity.constructor | ControlePessoas/ControlePessoas.Core/Entities/BaseEntity.cs:11-15 | a new entity has Id 0, CriadoEm equal to the current instant, and Ativo true |
| Entities.BaseEntity.Desativar | ControlePessoas/ControlePessoas.Core/Entities/BaseEntity.cs:20 | Desativar clears Ativo and changes nothing else |
| Entities.Pessoa.constructor | ControlePessoas/ControlePessoas.Core/Entities/Pessoa.cs:13-22 | the five arguments are stored unvalidated, the address list is empty, and the base entity is fresh and active |
| Entities.Pessoa.Idade | ControlePessoas/ControlePessoas.Core/Entities/Pessoa.cs:30-42 | the getter stores AgeAt(DataNascimento, now) in the backing field and returns it; only that field changes |
| Entities.Endereco.constructor | ControlePessoas/ControlePessoas.Core/Entities/Endereco.cs:11-22 | the nine arguments are stored as given, and the base entity is fresh and active |
| PessoaChecks.VerificacaoCpf | ControlePessoas/ControlePessoas.UnitTests/Core/Entities/PessoaTests.cs:65-69 | the CPF check's verdict: CpfFormato when IsCpf throws, else CpfComprimento when the raw text is not 11 characters, else CpfInvalido when IsCpf answers false, else Aprovada (definition) |
| PessoaChecks.ValidaCpf | ControlePessoas/ControlePessoas.UnitTests/Core/Entities/PessoaTests.cs:65-69 | the check runs IsCpf, then tests the raw length, then IsCpf's answer, giving VerificacaoCpf |
| PessoaChecks.VerificacaoCpfAprovadaIff | ControlePessoas/ControlePessoas.UnitTests/Core/Entities/PessoaTests.cs:65-69 | the CPF check passes exactly on eleven ASCII digits that satisfy the published rule |
| PessoaChecks.FormattedCpfFailsLength | ControlePessoas/ControlePessoas.UnitTests/Core/Entities/PessoaTests.cs:65-67 | a valid CPF with one separator is accepted by IsCpf but refused on its length |
| PessoaChecks.VerificacaoNovoCpf | ControlePessoas/ControlePessoas.UnitTests/Core/Entities/PessoaTests.cs:86-90 | the duplicate check's verdict: CpfFormato when IsCpf throws on the new CPF, else CpfInvalido when it answers false, else CpfJaCadastrado when the two texts are identical, else Aprovada (definition) |
| PessoaChecks.ValidaNovoCpf | ControlePessoas/ControlePessoas.UnitTests/Core/Entities/PessoaTests.cs:86-90 | the new person's CPF is validated, then compared verbatim with the existing one, giving VerificacaoNovoCpf |
| PessoaChecks.VerificacaoNovoCpfAprovadaIff | ControlePessoas/ControlePessoas.UnitTests/Core/Entities/PessoaTests.cs:86-90 | the new CPF passes exactly when its cleaned text is a valid CPF and its text differs from the existing one |
| PessoaChecks.DuplicateDetectedOnlyVerbatim | ControlePessoas/ControlePessoas.UnitTests/Core/Entities/PessoaTests.cs:89-90 | the same number is a duplicate when entered identically but not when one copy carries a separator |
| PessoaChecks.VerificacaoIdade | ControlePessoas/ControlePessoas.UnitTests/Core/Entities/PessoaTests.cs:168-169 | the age check passes exactly when the birth year is more than 18 years back, or 18 years back with the ordinal day reached; otherwise it reports MenorDeIdade |
| PessoaChecks.ValidaIdade | ControlePessoas/ControlePessoas.UnitTests/Core/Entities/PessoaTests.cs:168-169 | the check reads the Idade getter and gives VerificacaoIdade; the getter's backing field holds the age |
| PessoaChecks.VerificacaoIdadeByCalendar | ControlePessoas/ControlePessoas.UnitTests/Core/Entities/PessoaTests.cs:168-169 | between years of equal leap status the check passes exactly from the 18th birthday on |
| PessoaChecks.ApprovedAtEighteen | ControlePessoas/ControlePessoas.UnitTests/Core/Entities/PessoaTests.cs:168-173 | born in a common year, one passes the check on the 18th birthday with an age of exactly 18 |
| PessoaChecks.LeapBirthRefusedAtEighteen | ControlePessoas/ControlePessoas.UnitTests/Core/Entities/PessoaTests.cs:168-169 | born 1 March 2004, one is refused with MenorDeIdade on 1 March 2022, where the calendar age is 18 |
| PessoaChecks.LeapBirthRefusedOnBirthday | ControlePessoas/ControlePessoas.UnitTests/Core/Entities/PessoaTests.cs:168-169 | born after February in a leap year, one is refused with MenorDeIdade on the 18th birthday, where the computed age is 17 and the calendar age 18 |
| PessoaChecks.VerificacaoGenero | ControlePessoas/ControlePessoas.UnitTests/Core/Entities/PessoaTests.cs:187-192 | the gender check passes exactly on 'F' or 'M'; white space is reported as missing and anything else as invalid |
| PessoaChecks.ValidaGenero | ControlePessoas/ControlePessoas.UnitTests/Core/Entities/PessoaTests.cs:187-192 | the check on pessoa.Genero gives VerificacaoGenero |
| EnderecoChecks.Conflita | ControlePessoas/ControlePessoas.UnitTests/Core/Entities/EnderecoTests.cs:224 | two addresses conflict exactly when they have the same kind and the same person id (definition) |
| EnderecoChecks.SemConflitos | ControlePessoas/ControlePessoas.UnitTests/Core/Entities/EnderecoTests.cs:224 | no two addresses of a list conflict (definition) |
| EnderecoChecks.ConflitaSymmetric | ControlePessoas/ControlePessoas.UnitTests/Core/Entities/EnderecoTests.cs:224 | the conflict rule does not depend on which address came first |
| EnderecoChecks.FourTiposRepeat | ControlePessoas/ControlePessoas.UnitTests/Core/Entities/EnderecoTests.cs:54-56 | with three address kinds, any four kinds contain a repeat |
| EnderecoChecks.DistinctTiposAtMostThree | ControlePessoas/ControlePessoas.UnitTests/Core/Entities/EnderecoTests.cs:54-56 | pairwise distinct address kinds are at most three |
| EnderecoChecks.AtMostThreePerPessoa | ControlePessoas/ControlePessoas.UnitTests/Core/Entities/EnderecoTests.cs:224-225 | a person's addresses that are pairwise free of conflict are at most three |
| EnderecoChecks.AppendKeepsSemConflitos | ControlePessoas/ControlePessoas.UnitTests/Core/Entities/EnderecoTests.cs:224-225 | adding an address to a conflict-free list keeps it free of conflict exactly when the address conflicts with no member |
| Scenarios.PessoaList | ControlePessoas/ControlePessoas.UnitTests/Core/Entities/PessoaTests.cs:44-51 | the five fixture persons are built with their CPFs, birth dates and genders |
| Scenarios.CpfTest | ControlePessoas/ControlePessoas.UnitTests/Core/Entities/PessoaTests.cs:57-74 | the CPF test passes on every fixture person |
| Scenarios.NovoCpfTest | ControlePessoas/ControlePessoas.UnitTests/Core/Entities/PessoaTests.cs:77-95 | the duplicate-CPF test passes for any existing CPF other than 46323486008 |
| Scenarios.IdadeTest | ControlePessoas/ControlePessoas.UnitTests/Core/Entities/PessoaTests.cs:156-174 | the age test passes on every fixture person from 2022 on, and the age it then reads is above 18 |
| Scenarios.GeneroTest | ControlePessoas/ControlePessoas.UnitTests/Core/Entities/PessoaTests.cs:180-197 | the gender test passes on every fixture person |
| Scenarios.IdadeMatchesCalculaIdade | ControlePessoas/ControlePessoas.Core/Entities/Pessoa.cs:30-42 | the Idade getter and CalculaIdade give the same age at the same instant |
| Scenarios.TipoTest | ControlePessoas/ControlePessoas.UnitTests/Core/Entities/EnderecoTests.cs:53-69 | an address built with a given kind reports that kind and its postal code 20211290 |
| Scenarios.EnderecoList | ControlePessoas/ControlePessoas.UnitTests/Core/Entities/EnderecoTests.cs:42-49 | the five fixture addresses are commercial, number 1 and of person 1 |
| Scenarios.NumeroTest | ControlePessoas/ControlePessoas.UnitTests/Core/Entities/EnderecoTests.cs:116-131 | the number read from any fixture address is 1 |
| Scenarios.EnderecoListConflicts | ControlePessoas/ControlePessoas.UnitTests/Core/Entities/EnderecoTests.cs:42-49 | the fixture addresses are not free of conflict under the duplicate-address rule |
| Scenarios.EnderecoDuplicadoTest | ControlePessoas/ControlePessoas.UnitTests/Core/Entities/EnderecoTests.cs:217-231 | the address the test compares has another kind and person, so no conflict; the address it calls invalid does conflict |
| Scenarios.DesativarEndereco | ControlePessoas/ControlePessoas.Core/Entities/BaseEntity.cs:20 | deactivating an address clears its active flag and leaves the address's own fields unchanged |

## Left out

- The CEP tests (postal code, district, city, state) query a web service.
  RestSharp, Newtonsoft.Json and `CepViewModel` are not modelled.
- The `GetRandom…` helpers draw from `System.Random`. Each random pick is an
  index or value parameter of the scenario methods.
- `DateTime.Now` is the parameter `now`.
  - The getter and `CalculaIdade` read the clock twice, once for `Year`
    and once for `DayOfYear`. The model reads one instant; two reads
    straddling midnight on 31 December are not captured.
  - `CriadoEm` is the same parameter.
- `DateTime` is a date plus a tick count within the day.
  - Kinds, time zones and parsing are not modelled.
  - The minor and adult dates go through `ToString` and `DateTime.Parse`
    in the tests; the model uses the dates directly.
- `ToString` is not modelled:
  - on `Pessoa`, it is used by the non-empty check at PessoaTests.cs line
    166 and by `Assert.DoesNotContain(pessoaNova.ToString(), pessoaExistent.Cpf)`
    at line 93;
  - on `DateTime`, it is used by the birth-date test at lines 132-152;
  - on `int`, it is used by the number test.
- The name, surname and birth-date tests (PessoaTests.cs lines 101-152)
  check that the stored fields are non-empty. The constructor's contract
  covers their storage. The birth-date test also asserts `Idade > 18` at
  line 146; that assertion is the one `Scenarios.IdadeTest` proves.
- The test's second gender check runs on a random `GetRandomGenero` string
  drawn from {F, M}. It always passes and is not modelled.
- Text.Trim: only the six ASCII white-space characters are trimmed. .NET
  also trims the other `char.IsWhiteSpace` characters (U+0085, U+00A0 and
  the Unicode separators). `char.IsWhiteSpace` in the gender check uses the
  same ASCII set.
- Cpf.IsCpf, PessoaChecks.ValidaCpf, PessoaChecks.ValidaNovoCpf: a Dafny
  string is a sequence of Unicode scalar values. .NET `Length` and indexing
  count UTF-16 code units. The model therefore differs on text outside the
  Basic Multilingual Plane. For example, "\U{1F600}0123456789" has 11
  characters here, so the model gives FormatException, but 12 units in
  .NET, where IsCpf returns false. Also, "\U{1F600}123456789" is false here,
  while .NET parses a lone surrogate at line 261 and throws.
- Cpf.IsCpf: `EndsWith(string)` is culture-sensitive in .NET. The model
  compares ordinally. The two agree whenever the last two cleaned
  characters are digits. They can differ otherwise: a culture-sensitive
  comparison ignores zero-weight characters, among them U+00AD and the ASCII
  control characters U+0000 to U+0008, U+000E to U+001F and U+007F. For
  example, "000000000\u00AD0" and "000000000\u00000" have computed digits
  "00", so .NET can answer true where the model answers false.
- Cpf.IsCpf: `int.Parse` of a one-character string is modelled as
  accepting exactly '0' to '9'.
- Null strings and null references are not modelled. xUnit assertions and
  thrown exceptions become returned verdicts.
- Entities: C# inheritance becomes a `base` field holding a `BaseEntity`.
  - `Id` is never assigned in the core, so it stays 0; an identifier
    assigned by a store is not modelled.
  - Private setters cannot be expressed beyond `const` fields and the
    `modifies` frames.
  - The unused private setter of `Idade` is not modelled.
- `Pessoa.Enderecos` is an `IEnumerable` with a public setter. It is a
  `seq<Endereco>` field; lazy enumeration is not modelled.
- `TipoEnderecoEnum.cs` is not part of this model. The three kinds are the
  ones the address tests enumerate. Their numeric values are not modelled.
  A C# enum variable can also hold an undeclared value cast from its
  underlying int, such as `(TipoEnderecoEnum)3`, and the `Endereco`
  constructor would store it; the model excludes such values.
  `EnderecoChecks.DistinctTiposAtMostThree` and
  `EnderecoChecks.AtMostThreePerPessoa` depend on this: with undeclared
  kinds a person could hold more than three conflict-free addresses.
- Addresses: the numbers and person ids are .NET `int` (`Int32`), and
  nothing in the core does arithmetic on them.
