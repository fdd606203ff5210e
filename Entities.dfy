/** The entities of ControlePessoas.Core: BaseEntity, Pessoa and Endereco.
    C# inheritance (Pessoa : BaseEntity, Endereco : BaseEntity) becomes
    composition: each entity owns the BaseEntity object its base constructor
    initialised. A property with a private setter that nothing calls is a
    `const`; a property something assigns is a `var`. The clock the base
    constructor reads is the `now` parameter. */
module Entities {
  import opened Calendar
  import Age

  /** A .NET int. */
  type Int32 = x: int | -0x8000_0000 <= x < 0x8000_0000

  /** The address kinds the address tests enumerate. */
  datatype TipoEnderecoEnum = Cobranca | Comercial | Residencial

  /** BaseEntity: an id, the creation instant and an active flag that only
      Desativar clears. */
  class BaseEntity {
    /** Id has a private setter that nothing in the core calls, so it keeps
        the default value of an int. */
    const id: Int32
    const criadoEm: DateTime
    var ativo: bool

    constructor (now: DateTime)
      ensures id == 0 && criadoEm == now && ativo
    {
      id := 0;
      criadoEm := now;
      ativo := true;
    }

    /** Desativar(): the entity becomes inactive; nothing else changes. */
    method Desativar()
      modifies this`ativo
      ensures !ativo
    {
      ativo := false;
    }
  }

  /** Pessoa: identity data fixed at construction, a replaceable list of
      addresses, and the backing field the Idade getter writes. */
  class Pessoa {
    const base: BaseEntity
    const nome: string
    const sobrenome: string
    const cpf: string
    const dataNascimento: DateTime
    const genero: char
    var enderecos: seq<Endereco>
    var idade: int

    /** new Pessoa(nome, sobrenome, cpf, dataNascimento, genero), created at `now`:
        the arguments are stored as given, with no validation, and the
        address list starts empty. */
    constructor (nome: string, sobrenome: string, cpf: string,
                 dataNascimento: DateTime, genero: char, now: DateTime)
      ensures fresh(base) && base.id == 0 && base.criadoEm == now && base.ativo
      ensures this.nome == nome && this.sobrenome == sobrenome && this.cpf == cpf
      ensures this.dataNascimento == dataNascimento && this.genero == genero
      ensures enderecos == [] && idade == 0
    {
      base := new BaseEntity(now);
      this.nome := nome;
      this.sobrenome := sobrenome;
      this.cpf := cpf;
      this.dataNascimento := dataNascimento;
      this.genero := genero;
      enderecos := [];
      idade := 0;
    }

    /** The Idade getter read at instant `now`: it recomputes the age into the
        backing field and returns it. */
    method Idade(now: DateTime) returns (r: int)
      modifies this`idade
      ensures r == Age.AgeAt(dataNascimento, now) && idade == r
    {
      idade := now.year - dataNascimento.year;
      if DayOfYear(now) < DayOfYear(dataNascimento) {
        idade := idade - 1;
      }
      r := idade;
    }
  }

  /** Endereco: nine public read-write properties, and its base entity. */
  class Endereco {
    const base: BaseEntity
    var tipo: TipoEnderecoEnum
    var logradouro: string
    var numero: Int32
    var complemento: string
    var bairro: string
    var cidade: string
    var estado: string
    var cep: string
    var idPessoa: Int32

    /** new Endereco(...), created at `now`: every argument stored as given. */
    constructor (tipo: TipoEnderecoEnum, logradouro: string, numero: Int32,
                 complemento: string, bairro: string, cidade: string,
                 estado: string, cep: string, idPessoa: Int32, now: DateTime)
      ensures fresh(base) && base.id == 0 && base.criadoEm == now && base.ativo
      ensures this.tipo == tipo && this.logradouro == logradouro && this.numero == numero
      ensures this.complemento == complemento && this.bairro == bairro
      ensures this.cidade == cidade && this.estado == estado && this.cep == cep
      ensures this.idPessoa == idPessoa
    {
      base := new BaseEntity(now);
      this.tipo := tipo;
      this.logradouro := logradouro;
      this.numero := numero;
      this.complemento := complemento;
      this.bairro := bairro;
      this.cidade := cidade;
      this.estado := estado;
      this.cep := cep;
      this.idPessoa := idPessoa;
    }
  }
}
