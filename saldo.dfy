/** `obterSaldoPorUsuario`: realized income minus realized expense of one
    user, each sum read from the repository query with null taken as zero. */
module Saldos {
  import opened Wrappers
  import opened Entidades
  import opened Repositorio

  /** The two where-clauses the balance asks the repository for. */
  function Receitas(idUsuario: int): Criterio { Criterio(idUsuario, Receita, Some(Realizado)) }
  function Despesas(idUsuario: int): Criterio { Criterio(idUsuario, Despesa, Some(Realizado)) }

  /** The balance of user `idUsuario` over the rows `ls`. */
  function Saldo(ls: seq<Lancamento>, idUsuario: int): int {
    Soma(ls, Receitas(idUsuario)).GetOr(0) - Soma(ls, Despesas(idUsuario)).GetOr(0)
  }

  /** Reference definition: what one launch adds to a user's balance. A
      realized income of the user adds its amount, a realized expense of the
      user subtracts it, anything else adds nothing. */
  function Efeito(l: Lancamento, idUsuario: int): int {
    if l.usuario.Some? && l.usuario.value.id == Some(idUsuario)
       && l.status == Some(Realizado) && l.valor.Some? then
      match l.tipo
      case Some(Receita) => l.valor.value
      case Some(Despesa) => -l.valor.value
      case None => 0
    else 0
  }

  /** Reference definition: the signed amounts added up row by row. */
  function SomaEfeitos(ls: seq<Lancamento>, idUsuario: int): int {
    if ls == [] then 0 else Efeito(ls[0], idUsuario) + SomaEfeitos(ls[1..], idUsuario)
  }

  lemma {:induction false} SomaEfeitosConcat(a: seq<Lancamento>, b: seq<Lancamento>, idUsuario: int)
    ensures SomaEfeitos(a + b, idUsuario) == SomaEfeitos(a, idUsuario) + SomaEfeitos(b, idUsuario)
  {
    if a == [] {
      assert a + b == b;
    } else {
      assert (a + b)[1..] == a[1..] + b;
      SomaEfeitosConcat(a[1..], b, idUsuario);
    }
  }

  /** The balance over two blocks of rows is the sum of their balances. */
  lemma SaldoConcat(a: seq<Lancamento>, b: seq<Lancamento>, idUsuario: int)
    ensures Saldo(a + b, idUsuario) == Saldo(a, idUsuario) + Saldo(b, idUsuario)
  {
    SomaConcat(a, b, Receitas(idUsuario));
    SomaConcat(a, b, Despesas(idUsuario));
  }

  /** The balance of a single launch is its effect. */
  lemma SaldoUnitario(l: Lancamento, idUsuario: int)
    ensures Saldo([l], idUsuario) == Efeito(l, idUsuario)
  {
    SomaUnitaria(l, Receitas(idUsuario));
    SomaUnitaria(l, Despesas(idUsuario));
  }

  /** Income-minus-expense with null as zero is the signed sum of the
      realized launches of the user. */
  lemma {:induction false} SaldoEhSomaDosEfeitos(ls: seq<Lancamento>, idUsuario: int)
    ensures Saldo(ls, idUsuario) == SomaEfeitos(ls, idUsuario)
  {
    if ls != [] {
      assert ls == [ls[0]] + ls[1..];
      SaldoConcat([ls[0]], ls[1..], idUsuario);
      SaldoUnitario(ls[0], idUsuario);
      SaldoEhSomaDosEfeitos(ls[1..], idUsuario);
    }
  }

  /** The order in which the rows are read does not change the balance. */
  lemma SaldoPermutacao(a: seq<Lancamento>, b: seq<Lancamento>, idUsuario: int)
    requires multiset(a) == multiset(b)
    ensures Saldo(a, idUsuario) == Saldo(b, idUsuario)
  {
    SomaPermutacao(a, b, Receitas(idUsuario));
    SomaPermutacao(a, b, Despesas(idUsuario));
  }

  /** A launch that is not realized, or that belongs to another user, leaves
      the balance as it was. */
  lemma SaldoIgnoraSemEfeito(ls: seq<Lancamento>, l: Lancamento, idUsuario: int)
    requires l.status != Some(Realizado) || l.usuario.None? || l.usuario.value.id != Some(idUsuario)
    ensures Saldo(ls + [l], idUsuario) == Saldo(ls, idUsuario)
  {
    SaldoConcat(ls, [l], idUsuario);
    SaldoUnitario(l, idUsuario);
  }

  /** No launches at all: the query yields null for both sums and the balance is zero. */
  lemma SaldoSemLancamentos(idUsuario: int)
    ensures Saldo([], idUsuario) == 0
  {
  }

  /** A realized launch of user 1, of `tipo` and `valor` cents. */
  function Realizado1(tipo: TipoLancamento, valor: int): Lancamento {
    Vazio.(usuario := Some(Usuario(Some(1), "", "", "")), tipo := Some(tipo),
           status := Some(Realizado), valor := Some(valor))
  }

  /** The service test: realized income of 100 and realized expense of 50
      give 50 (amounts in cents); income of 100 alone gives 100. */
  lemma SaldoDoTeste()
    ensures Saldo([Realizado1(Receita, 10000), Realizado1(Despesa, 5000)], 1) == 5000
    ensures Saldo([Realizado1(Receita, 10000)], 1) == 10000
  {
    SaldoEhSomaDosEfeitos([Realizado1(Receita, 10000), Realizado1(Despesa, 5000)], 1);
    SaldoEhSomaDosEfeitos([Realizado1(Receita, 10000)], 1);
  }

  /** The query as written has no status parameter, so it also sums launches
      that are not realized: a pending income of 100 makes it return 100,
      while the realized-only query of the balance returns null and the
      balance stays 0. */
  lemma ConsultaComoEscritaSomaPendentes()
    ensures var pendente := Realizado1(Receita, 10000).(status := Some(Pendente));
      && Soma([pendente], Criterio(1, Receita, None)) == Some(10000)
      && Soma([pendente], Receitas(1)) == None
      && Saldo([pendente], 1) == 0
  {
    var pendente := Realizado1(Receita, 10000).(status := Some(Pendente));
    SomaUnitaria(pendente, Criterio(1, Receita, None));
    SaldoUnitario(pendente, 1);
  }
}
