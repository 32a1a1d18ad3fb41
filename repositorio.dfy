/** `LancamentoRepository.obterSaldoPorTipoLancamentoEUsuario`: the
    select-sum-where aggregate over the launch table. */
module Repositorio {
  import opened Wrappers
  import opened Entidades

  /** The where-clause of the sum query. `status == None` is the query as
      written, which has no status parameter; `Some(s)` is the three-argument
      form that the service test calls, restricted to launches of status `s`. */
  datatype Criterio = Criterio(idUsuario: int, tipo: TipoLancamento, status: Option<StatusLancamento>)

  /** The row survives `join l.usuario u where u.id = :idUsuario and l.tipo = :tipo`
      (and the status filter, when there is one). The inner join drops
      launches without a user. */
  predicate Atende(l: Lancamento, c: Criterio) {
    && l.usuario.Some?
    && l.usuario.value.id == Some(c.idUsuario)
    && l.tipo == Some(c.tipo)
    && (c.status.None? || l.status == c.status)
  }

  /** The row contributes to `sum(l.valor)`: SQL's `sum` skips null amounts. */
  predicate Conta(l: Lancamento, c: Criterio) {
    Atende(l, c) && l.valor.Some?
  }

  /** Combining two partial SQL sums: null is the sum of no values. */
  function Juntar(a: Option<int>, b: Option<int>): (r: Option<int>)
    ensures r.None? <==> a.None? && b.None?
    ensures r.GetOr(0) == a.GetOr(0) + b.GetOr(0)
  {
    if a.None? then b
    else if b.None? then a
    else Some(a.value + b.value)
  }

  /** The contribution of a single row. */
  function Parcela(l: Lancamento, c: Criterio): Option<int> {
    if Conta(l, c) then Some(l.valor.value) else None
  }

  /** The query's result over the rows `ls`: absent (Java `null`) when no row
      contributes, since the grouped query then yields no row or a null sum;
      otherwise the exact sum of the contributing amounts. */
  function Soma(ls: seq<Lancamento>, c: Criterio): (r: Option<int>)
    ensures r.None? <==> forall i :: 0 <= i < |ls| ==> !Conta(ls[i], c)
  {
    if ls == [] then None else Juntar(Parcela(ls[0], c), Soma(ls[1..], c))
  }

  /** Reference definition: the matching amounts added row by row, with no
      distinction between "nothing matched" and zero. */
  function Valores(ls: seq<Lancamento>, c: Criterio): int {
    if ls == [] then 0
    else (if Conta(ls[0], c) then ls[0].valor.value else 0) + Valores(ls[1..], c)
  }

  /** The query returns exactly the sum of the matching amounts, or null when
      nothing matches. */
  lemma {:induction false} SomaEhTotal(ls: seq<Lancamento>, c: Criterio)
    ensures Soma(ls, c).GetOr(0) == Valores(ls, c)
    ensures Soma(ls, c).Some? ==> Soma(ls, c).value == Valores(ls, c)
  {
    if ls != [] {
      SomaEhTotal(ls[1..], c);
    }
  }

  /** The sum over two blocks of rows combines the two partial sums. */
  lemma {:induction false} SomaConcat(a: seq<Lancamento>, b: seq<Lancamento>, c: Criterio)
    ensures Soma(a + b, c) == Juntar(Soma(a, c), Soma(b, c))
  {
    if a == [] {
      assert a + b == b;
    } else {
      assert (a + b)[1..] == a[1..] + b;
      SomaConcat(a[1..], b, c);
    }
  }

  /** A single row contributes its amount exactly when it matches. */
  lemma SomaUnitaria(l: Lancamento, c: Criterio)
    ensures Soma([l], c) == if Conta(l, c) then Some(l.valor.value) else None
  {
    assert [l][1..] == [];
  }

  lemma JuntarTroca(a: Option<int>, b: Option<int>, d: Option<int>)
    ensures Juntar(a, Juntar(b, d)) == Juntar(b, Juntar(a, d))
  {
  }

  /** Removing the element at `i` leaves the rest of the bag. */
  lemma MultisetSemPosicao(b: seq<Lancamento>, i: nat)
    requires i < |b|
    ensures b == b[..i] + [b[i]] + b[i + 1..]
    ensures multiset(b[..i] + b[i + 1..]) == multiset(b) - multiset{b[i]}
  {
    assert b == b[..i] + [b[i]] + b[i + 1..];
  }

  /** The sum is unchanged when one row moves to the front. */
  lemma SomaPosicaoNaFrente(b: seq<Lancamento>, i: nat, c: Criterio)
    requires i < |b|
    ensures Soma(b, c) == Juntar(Parcela(b[i], c), Soma(b[..i] + b[i + 1..], c))
  {
    MultisetSemPosicao(b, i);
    assert b == b[..i] + ([b[i]] + b[i + 1..]);
    SomaConcat(b[..i], [b[i]] + b[i + 1..], c);
    SomaConcat([b[i]], b[i + 1..], c);
    SomaUnitaria(b[i], c);
    SomaConcat(b[..i], b[i + 1..], c);
    JuntarTroca(Soma(b[..i], c), Parcela(b[i], c), Soma(b[i + 1..], c));
  }

  /** The order of the rows does not matter: SQL sums a bag of rows. */
  lemma {:induction false} SomaPermutacao(a: seq<Lancamento>, b: seq<Lancamento>, c: Criterio)
    requires multiset(a) == multiset(b)
    ensures Soma(a, c) == Soma(b, c)
    decreases |a|
  {
    if a == [] {
      assert b == [] by { assert |multiset(b)| == 0; }
    } else {
      assert a[0] in multiset(b);
      var i :| 0 <= i < |b| && b[i] == a[0];
      MultisetSemPosicao(b, i);
      assert a == [a[0]] + a[1..];
      assert multiset(a[1..]) == multiset(a) - multiset{a[0]};
      SomaPermutacao(a[1..], b[..i] + b[i + 1..], c);
      SomaPosicaoNaFrente(b, i, c);
    }
  }

  /** When every contributing amount is positive, so is the sum. */
  lemma {:induction false} SomaPositiva(ls: seq<Lancamento>, c: Criterio)
    requires forall i :: 0 <= i < |ls| && Conta(ls[i], c) ==> ls[i].valor.value > 0
    ensures Soma(ls, c).Some? ==> Soma(ls, c).value > 0
  {
    if ls != [] {
      SomaPositiva(ls[1..], c);
    }
  }
}
