/** The address rule the address tests check inline: two addresses of the
    same kind for the same person may not both be registered. Since the kind
    has three values, a person can hold at most three addresses that are
    pairwise free of conflict. */
module EnderecoChecks {
  import opened Entities

  /** Two addresses conflict when they have the same kind and belong to the
      same person; every other field is irrelevant. */
  predicate Conflita(existente: Endereco, novo: Endereco)
    reads existente, novo
  {
    existente.tipo == novo.tipo && existente.idPessoa == novo.idPessoa
  }

  /** The rule does not depend on which address was there first. */
  lemma ConflitaSymmetric(a: Endereco, b: Endereco)
    ensures Conflita(a, b) <==> Conflita(b, a)
  {
  }

  /** No two addresses of the list conflict. */
  predicate SemConflitos(enderecos: seq<Endereco>)
    reads set e | e in enderecos
  {
    forall i, j :: 0 <= i < j < |enderecos| ==> !Conflita(enderecos[i], enderecos[j])
  }

  /** Among any four kinds two coincide. */
  lemma FourTiposRepeat(a: TipoEnderecoEnum, b: TipoEnderecoEnum, c: TipoEnderecoEnum, d: TipoEnderecoEnum)
    ensures a == b || a == c || a == d || b == c || b == d || c == d
  {
  }

  /** Pairwise distinct kinds are at most three, one per enum value. */
  lemma DistinctTiposAtMostThree(tipos: seq<TipoEnderecoEnum>)
    requires forall i, j :: 0 <= i < j < |tipos| ==> tipos[i] != tipos[j]
    ensures |tipos| <= 3
  {
    if |tipos| > 3 {
      FourTiposRepeat(tipos[0], tipos[1], tipos[2], tipos[3]);
    }
  }

  /** Addresses of one person that are pairwise free of conflict are at most
      three. */
  lemma AtMostThreePerPessoa(enderecos: seq<Endereco>, idPessoa: Int32)
    requires forall k :: 0 <= k < |enderecos| ==> enderecos[k].idPessoa == idPessoa
    requires SemConflitos(enderecos)
    ensures |enderecos| <= 3
  {
    var tipos := seq(|enderecos|, k reads enderecos requires 0 <= k < |enderecos| => enderecos[k].tipo);
    forall i, j | 0 <= i < j < |tipos| ensures tipos[i] != tipos[j] {
      assert !Conflita(enderecos[i], enderecos[j]);
    }
    DistinctTiposAtMostThree(tipos);
  }

  /** A new address keeps a conflict-free list free of conflict exactly when
      it conflicts with none of the list's members. */
  lemma AppendKeepsSemConflitos(enderecos: seq<Endereco>, novo: Endereco)
    requires SemConflitos(enderecos)
    ensures SemConflitos(enderecos + [novo]) <==>
      forall k :: 0 <= k < |enderecos| ==> !Conflita(enderecos[k], novo)
  {
    var s := enderecos + [novo];
    if forall k :: 0 <= k < |enderecos| ==> !Conflita(enderecos[k], novo) {
      forall i, j | 0 <= i < j < |s| ensures !Conflita(s[i], s[j]) {
        if j < |enderecos| {
          assert s[i] == enderecos[i] && s[j] == enderecos[j];
        } else {
          assert s[i] == enderecos[i] && s[j] == novo;
        }
      }
    }
    if SemConflitos(s) {
      forall k | 0 <= k < |enderecos| ensures !Conflita(enderecos[k], novo) {
        assert s[k] == enderecos[k] && s[|enderecos|] == novo;
      }
    }
  }
}
