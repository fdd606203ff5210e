/** The test scenarios of the person and address tests, on the fixture
    objects those tests build. A random pick from a fixture list becomes an
    index parameter; the clock becomes `now`. */
module Scenarios {
  import opened Calendar
  import opened Cpf
  import opened Age
  import opened Entities
  import opened PessoaChecks
  import opened EnderecoChecks

  // ---------------------------------------------------------------------------
  // Persons.

  /** The five fixture persons of the person tests. */
  method PessoaList(now: DateTime) returns (lista: seq<Pessoa>)
    ensures |lista| == 5 && forall k :: 0 <= k < 5 ==> fresh(lista[k]) && fresh(lista[k].base)
    ensures lista[0].cpf == "09519964797" && lista[0].dataNascimento == Date(1997, 12, 2) && lista[0].genero == 'F'
    ensures lista[1].cpf == "37958496249" && lista[1].dataNascimento == Date(1980, 11, 11) && lista[1].genero == 'M'
    ensures lista[2].cpf == "51651114749" && lista[2].dataNascimento == Date(2002, 2, 12) && lista[2].genero == 'F'
    ensures lista[3].cpf == "07426597717" && lista[3].dataNascimento == Date(2000, 3, 17) && lista[3].genero == 'M'
    ensures lista[4].cpf == "86235974604" && lista[4].dataNascimento == Date(1996, 2, 11) && lista[4].genero == 'F'
  {
    var p0 := new Pessoa("nomeum", "sobrenomeum", "09519964797", Date(1997, 12, 2), 'F', now);
    var p1 := new Pessoa("nomedois", "sobrenomedois", "37958496249", Date(1980, 11, 11), 'M', now);
    var p2 := new Pessoa("nometres", "sobrenometres", "51651114749", Date(2002, 2, 12), 'F', now);
    var p3 := new Pessoa("nomequatro", "sobrenomequatro", "07426597717", Date(2000, 3, 17), 'M', now);
    var p4 := new Pessoa("nomecinco", "sobrenomecinco", "86235974604", Date(1996, 2, 11), 'F', now);
    lista := [p0, p1, p2, p3, p4];
  }

  /** The CPF test on the k-th fixture person passes. */
  method CpfTest(k: nat, now: DateTime) returns (v: Verificacao)
    requires k < 5
    ensures v == Aprovada
  {
    var lista := PessoaList(now);
    var pessoa := lista[k];
    if k == 0 {
      FixtureNomeUmAccepted();
    } else if k == 1 {
      FixtureNomeDoisAccepted();
    } else if k == 2 {
      FixtureNomeTresAccepted();
    } else if k == 3 {
      FixtureNomeQuatroAccepted();
    } else {
      FixtureNomeCincoAccepted();
    }
    v := ValidaCpf(pessoa);
  }

  /** The duplicate-CPF test: a person with a CPF from the fixture list and a
      new person with CPF 46323486008. The new person passes whenever the
      picked CPF is a different one. */
  method NovoCpfTest(cpf: string, now: DateTime) returns (v: Verificacao)
    requires cpf != "46323486008"
    ensures v == Aprovada
  {
    var pessoaExistente := new Pessoa("nometres", "sobrenometres", cpf, Date(2002, 2, 12), 'F', now);
    var pessoaNova := new Pessoa("nomecinco", "sobrenomecinco", "46323486008", Date(1996, 2, 11), 'F', now);
    NovaPessoaAccepted();
    v := ValidaNovoCpf(pessoaExistente, pessoaNova);
  }

  /** The age test on the k-th fixture person: from 2022 on it passes, and
      the age it reads is above 18. */
  method IdadeTest(k: nat, now: DateTime) returns (v: Verificacao, idade: int)
    requires k < 5 && now.year >= 2022
    ensures v == Aprovada && idade > 18
  {
    var lista := PessoaList(now);
    var pessoa := lista[k];
    assert pessoa.dataNascimento.year <= 2002;
    v := ValidaIdade(pessoa, now);
    idade := pessoa.Idade(now);
  }

  /** The gender test on the k-th fixture person passes. */
  method GeneroTest(k: nat, now: DateTime) returns (v: Verificacao)
    requires k < 5
    ensures v == Aprovada
  {
    var lista := PessoaList(now);
    v := ValidaGenero(lista[k]);
  }

  /** Reading Idade gives what CalculaIdade of the tests gives at the same
      instant. */
  method IdadeMatchesCalculaIdade(pessoa: Pessoa, now: DateTime) returns (getter: int, helper: int)
    modifies pessoa`idade
    ensures getter == helper == AgeAt(pessoa.dataNascimento, now)
  {
    getter := pessoa.Idade(now);
    helper := CalculaIdade(pessoa.dataNascimento, now);
  }

  // ---------------------------------------------------------------------------
  // Addresses.

  /** The kind test: an address built with kind `value` reports that kind and
      keeps its non-empty postal code. */
  method TipoTest(value: TipoEnderecoEnum, now: DateTime) returns (result: TipoEnderecoEnum, cep: string)
    ensures result == value && cep == "20211290"
  {
    var endereco := new Endereco(value, "Rua Itapiru", 33, "casa", "Catumbi", "Rio de janeiro", "RJ", "20211290", 1, now);
    result := endereco.tipo;
    cep := endereco.cep;
  }

  /** The five fixture addresses of the address tests: all commercial, all
      number 1, all of person 1. */
  method EnderecoList(now: DateTime) returns (lista: seq<Endereco>)
    ensures |lista| == 5
    ensures forall k :: 0 <= k < 5 ==> fresh(lista[k]) && lista[k].tipo == Comercial
    ensures forall k :: 0 <= k < 5 ==> lista[k].numero == 1 && lista[k].idPessoa == 1
  {
    var e0 := new Endereco(Comercial, "Rua 1", 1, "complemento 1", "bairro 1", "cidade 1", "estado 1", "20211290", 1, now);
    var e1 := new Endereco(Comercial, "Rua 2", 1, "complemento 2", "bairro 2", "cidade 2", "estado 2", "20211290", 1, now);
    var e2 := new Endereco(Comercial, "Rua 3", 1, "complemento 3", "bairro 3", "cidade 3", "estado 3", "20211290", 1, now);
    var e3 := new Endereco(Comercial, "Rua 4", 1, "complemento 4", "bairro 4", "cidade 4", "estado 4", "20211290", 1, now);
    var e4 := new Endereco(Comercial, "Rua 5", 1, "complemento 5", "bairro 5", "cidade 5", "estado 5", "20211290", 1, now);
    lista := [e0, e1, e2, e3, e4];
  }

  /** The number test on the k-th fixture address reads 1. */
  method NumeroTest(k: nat, now: DateTime) returns (numero: Int32)
    requires k < 5
    ensures numero == 1
  {
    var lista := EnderecoList(now);
    numero := lista[k].numero;
  }

  /** Under the duplicate-address rule the fixture list itself could not be
      registered: its addresses conflict pairwise. */
  method EnderecoListConflicts(now: DateTime) returns (semConflitos: bool)
    ensures !semConflitos
  {
    var lista := EnderecoList(now);
    assert Conflita(lista[0], lista[1]);
    semConflitos := SemConflitos(lista);
  }

  /** The duplicate-address test: the address it compares with the existing
      one has another kind and another person, so the check passes; the
      address it calls invalid does conflict with the existing one. */
  method EnderecoDuplicadoTest(now: DateTime) returns (conflitaNovo: bool, conflitaInvalido: bool)
    ensures !conflitaNovo && conflitaInvalido
  {
    var enderecoExistente := new Endereco(Comercial, "Rua 1", 1, "complemento 1", "bairro 1", "cidade 1", "estado 1", "20211290", 1, now);
    var enderecoNovoInvalido := new Endereco(Comercial, "Rua 2", 1, "complemento 2", "bairro 2", "cidade 2", "estado 2", "20211290", 1, now);
    var enderecoNovo := new Endereco(Residencial, "Rua 2", 1, "complemento 2", "bairro 2", "cidade 2", "estado 2", "20211290", 2, now);
    conflitaNovo := Conflita(enderecoExistente, enderecoNovo);
    conflitaInvalido := Conflita(enderecoExistente, enderecoNovoInvalido);
    assert enderecoExistente.tipo != enderecoNovo.tipo;
    assert enderecoExistente.idPessoa != enderecoNovo.idPessoa;
  }

  /** Deactivating an address clears only its active flag. */
  method DesativarEndereco(endereco: Endereco)
    modifies endereco.base
    ensures !endereco.base.ativo
    ensures unchanged(endereco)
  {
    endereco.base.Desativar();
  }
}
