/** `LancamentoServiceImpl`: saving, updating, deleting and reading launches
    over the launch table, and the per-user balance. */
module LancamentoServico {
  import opened Wrappers
  import opened Entidades
  import opened Validacao
  import opened Repositorio
  import opened Saldos

  /** The rows of table `m` whose ids are below `n`, in ascending id order. */
  function Linhas(m: map<int, Lancamento>, n: nat): seq<Lancamento> {
    if n == 0 then [] else Linhas(m, n - 1) + (if n - 1 in m then [m[n - 1]] else [])
  }

  /** What row `k` of `m` adds to the balance of `idUsuario`. */
  function EfeitoEm(m: map<int, Lancamento>, k: int, idUsuario: int): int {
    if k in m then Efeito(m[k], idUsuario) else 0
  }

  /** Every stored row with an id below `n` is listed. */
  lemma {:induction false} LinhasContem(m: map<int, Lancamento>, n: nat, k: int)
    requires 0 <= k < n && k in m
    ensures m[k] in Linhas(m, n)
  {
    if k < n - 1 {
      LinhasContem(m, n - 1, k);
    }
  }

  /** Only stored rows with an id below `n` are listed. */
  lemma {:induction false} LinhasSoArmazenadas(m: map<int, Lancamento>, n: nat, x: Lancamento)
    requires x in Linhas(m, n)
    ensures exists k :: 0 <= k < n && k in m && m[k] == x
  {
    if n > 0 {
      if x in Linhas(m, n - 1) {
        LinhasSoArmazenadas(m, n - 1, x);
      } else {
        assert n - 1 in m && m[n - 1] == x;
      }
    }
  }

  /** Inserting under the next id appends the row to the listing. */
  lemma LinhasInsere(m: map<int, Lancamento>, n: nat, x: Lancamento)
    ensures Linhas(m[n := x], n + 1) == Linhas(m, n) + [x]
  {
    LinhasIguais(m, m[n := x], n, n);
  }

  /** Changing one row `k` (overwriting or removing it) changes the balance
      by that row's effect and nothing else. */
  lemma {:induction false} LinhasAlteradas(m: map<int, Lancamento>, m': map<int, Lancamento>, n: nat, k: int, idUsuario: int)
    requires 0 <= k < n
    requires forall j :: j != k ==> (j in m <==> j in m')
    requires forall j :: j != k && j in m ==> m[j] == m'[j]
    ensures SomaEfeitos(Linhas(m', n), idUsuario)
         == SomaEfeitos(Linhas(m, n), idUsuario) - EfeitoEm(m, k, idUsuario) + EfeitoEm(m', k, idUsuario)
  {
    var ultima := if n - 1 in m then [m[n - 1]] else [];
    var ultima' := if n - 1 in m' then [m'[n - 1]] else [];
    assert Linhas(m, n) == Linhas(m, n - 1) + ultima;
    assert Linhas(m', n) == Linhas(m', n - 1) + ultima';
    SomaEfeitosConcat(Linhas(m, n - 1), ultima, idUsuario);
    SomaEfeitosConcat(Linhas(m', n - 1), ultima', idUsuario);
    UltimaLinha(m, n - 1, idUsuario);
    UltimaLinha(m', n - 1, idUsuario);
    if k == n - 1 {
      LinhasIguais(m, m', n - 1, k);
    } else {
      LinhasAlteradas(m, m', n - 1, k, idUsuario);
      assert ultima == ultima';
    }
  }

  lemma UltimaLinha(m: map<int, Lancamento>, k: int, idUsuario: int)
    ensures SomaEfeitos(if k in m then [m[k]] else [], idUsuario) == EfeitoEm(m, k, idUsuario)
  {
    if k in m {
      assert [m[k]][1..] == [];
    }
  }

  /** Tables that agree below `n` list the same rows. */
  lemma {:induction false} LinhasIguais(m: map<int, Lancamento>, m': map<int, Lancamento>, n: nat, k: int)
    requires k >= n
    requires forall j :: j != k ==> (j in m <==> j in m')
    requires forall j :: j != k && j in m ==> m[j] == m'[j]
    ensures Linhas(m, n) == Linhas(m', n)
  {
    if n > 0 {
      LinhasIguais(m, m', n - 1, k);
    }
  }

  class LancamentoService {
    /** The launch table, by id. */
    var lancamentos: map<int, Lancamento>
    /** The next value of the table's identity column. */
    var proximoId: nat

    /** Every stored launch carries its own id, below the next generated id,
        and passed `validar` on its way in. */
    ghost predicate Valid()
      reads this
    {
      && proximoId >= 1
      && forall k :: k in lancamentos ==>
           1 <= k < proximoId && lancamentos[k].id == Some(k) && Valido(lancamentos[k])
    }

    /** The table's rows, in ascending id order: what the sum query reads. */
    function Tabela(): seq<Lancamento>
      reads this
    {
      Linhas(lancamentos, proximoId)
    }

    /** The user's balance read off the table as a sum of effects. */
    ghost function SaldoDe(idUsuario: int): int
      reads this
    {
      SomaEfeitos(Tabela(), idUsuario)
    }

    /** The listing the sum query reads holds every stored launch, and only those. */
    lemma TabelaListaArmazenados(k: int, x: Lancamento)
      requires Valid()
      ensures k in lancamentos ==> lancamentos[k] in Tabela()
      ensures x in Tabela() ==> exists j :: j in lancamentos && lancamentos[j] == x
    {
      if k in lancamentos {
        LinhasContem(lancamentos, proximoId, k);
      }
      if x in Tabela() {
        LinhasSoArmazenadas(lancamentos, proximoId, x);
      }
    }

    /** Reading the stored rows in any other order gives the same balance. */
    lemma SaldoEmQualquerOrdem(ls: seq<Lancamento>, idUsuario: int)
      requires multiset(ls) == multiset(Tabela())
      ensures Saldo(ls, idUsuario) == SaldoDe(idUsuario)
    {
      SaldoPermutacao(ls, Tabela(), idUsuario);
      SaldoEhSomaDosEfeitos(Tabela(), idUsuario);
    }

    constructor ()
      ensures Valid() && lancamentos == map[] && proximoId == 1
    {
      lancamentos := map[];
      proximoId := 1;
    }

    /** `repository.save`: a launch without an id, or whose id is not stored,
        is inserted under the next generated id; a launch whose id is stored
        overwrites that row. Returns the persisted launch. */
    method Persistir(l: Lancamento) returns (salvo: Lancamento)
      requires Valid() && Valido(l)
      modifies this
      ensures Valid()
      ensures if l.id.Some? && l.id.value in old(lancamentos) then
          && salvo == l
          && lancamentos == old(lancamentos)[l.id.value := l]
          && proximoId == old(proximoId)
          && forall u :: SaldoDe(u) == old(SaldoDe(u)) - old(EfeitoEm(lancamentos, l.id.value, u)) + Efeito(l, u)
        else
          && salvo == l.(id := Some(old(proximoId)))
          && lancamentos == old(lancamentos)[old(proximoId) := salvo]
          && proximoId == old(proximoId) + 1
          && forall u :: SaldoDe(u) == old(SaldoDe(u)) + Efeito(l, u)
    {
      if l.id.Some? && l.id.value in lancamentos {
        var k := l.id.value;
        var antes := lancamentos;
        lancamentos := lancamentos[k := l];
        forall u ensures SaldoDe(u) == SomaEfeitos(Linhas(antes, proximoId), u) - EfeitoEm(antes, k, u) + Efeito(l, u) {
          LinhasAlteradas(antes, lancamentos, proximoId, k, u);
        }
        salvo := l;
      } else {
        var antes := lancamentos;
        salvo := l.(id := Some(proximoId));
        lancamentos := lancamentos[proximoId := salvo];
        LinhasInsere(antes, proximoId, salvo);
        forall u ensures SomaEfeitos(Linhas(lancamentos, proximoId + 1), u) == SomaEfeitos(Linhas(antes, proximoId), u) + Efeito(l, u) {
          SomaEfeitosConcat(Linhas(antes, proximoId), [salvo], u);
        }
        proximoId := proximoId + 1;
      }
    }

    /** `salvar`: validates, forces the status to PENDENTE and saves. A launch
        that fails validation is never saved. A new pending launch does not
        change anyone's balance. */
    method Salvar(l: Lancamento) returns (r: Result<Lancamento, Failure>)
      requires Valid()
      modifies this
      ensures Valid()
      ensures Validar(l).Fail? ==>
        r == Failure(Validar(l).error) && lancamentos == old(lancamentos) && proximoId == old(proximoId)
      ensures Validar(l).Pass? ==>
        && r.Success? && r.value.id.Some? && r.value.status == Some(Pendente)
        && r.value == l.(id := r.value.id, status := Some(Pendente))
        && lancamentos == old(lancamentos)[r.value.id.value := r.value]
      ensures Validar(l).Pass? && (l.id.None? || l.id.value !in old(lancamentos)) ==>
        && r.value.id == Some(old(proximoId)) && proximoId == old(proximoId) + 1
        && forall u :: SaldoDe(u) == old(SaldoDe(u))
      ensures Validar(l).Pass? && l.id.Some? && l.id.value in old(lancamentos) ==>
        r.value.id == l.id && proximoId == old(proximoId)
    {
      var v := Validar(l);
      if v.Fail? {
        return Failure(v.error);
      }
      var salvo := Persistir(l.(status := Some(Pendente)));
      r := Success(salvo);
    }

    /** `atualizar`: the launch must already carry an id (a null id throws
        before the table is touched); then validates and saves. */
    method Atualizar(l: Lancamento) returns (r: Result<Lancamento, Failure>)
      requires Valid()
      modifies this
      ensures Valid()
      ensures l.id.None? ==>
        r == Failure(NullPointer) && lancamentos == old(lancamentos) && proximoId == old(proximoId)
      ensures l.id.Some? && Validar(l).Fail? ==>
        r == Failure(Validar(l).error) && lancamentos == old(lancamentos) && proximoId == old(proximoId)
      ensures l.id.Some? && Validar(l).Pass? && l.id.value in old(lancamentos) ==>
        && r == Success(l)
        && lancamentos == old(lancamentos)[l.id.value := l] && proximoId == old(proximoId)
        && forall u :: SaldoDe(u) == old(SaldoDe(u)) - old(EfeitoEm(lancamentos, l.id.value, u)) + Efeito(l, u)
      ensures l.id.Some? && Validar(l).Pass? && l.id.value !in old(lancamentos) ==>
        && r == Success(l.(id := Some(old(proximoId))))
        && lancamentos == old(lancamentos)[old(proximoId) := r.value] && proximoId == old(proximoId) + 1
        && forall u :: SaldoDe(u) == old(SaldoDe(u)) + Efeito(l, u)
    {
      if l.id.None? {
        return Failure(NullPointer);
      }
      var v := Validar(l);
      if v.Fail? {
        return Failure(v.error);
      }
      var salvo := Persistir(l);
      r := Success(salvo);
    }

    /** `deletar`: the launch must carry an id (a null id throws before the
        table is touched); the row with that id is removed, if there is one,
        and the balance loses exactly that row's effect. */
    method Deletar(l: Lancamento) returns (r: Outcome<Failure>)
      requires Valid()
      modifies this
      ensures Valid()
      ensures l.id.None? ==>
        r == Fail(NullPointer) && lancamentos == old(lancamentos) && proximoId == old(proximoId)
      ensures l.id.Some? ==>
        && r == Pass
        && lancamentos == old(lancamentos) - {l.id.value} && proximoId == old(proximoId)
        && forall u :: SaldoDe(u) == old(SaldoDe(u)) - old(EfeitoEm(lancamentos, l.id.value, u))
    {
      if l.id.None? {
        return Fail(NullPointer);
      }
      var k := l.id.value;
      var antes := lancamentos;
      lancamentos := lancamentos - {k};
      forall u ensures SaldoDe(u) == SomaEfeitos(Linhas(antes, proximoId), u) - EfeitoEm(antes, k, u) {
        if 0 <= k < proximoId {
          LinhasAlteradas(antes, lancamentos, proximoId, k, u);
        } else {
          LinhasIguais(antes, lancamentos, proximoId, if k < 0 then proximoId else k);
        }
      }
      r := Pass;
    }

    /** `atualizarStatus`: sets the status, whatever it was before, then
        updates. */
    method AtualizarStatus(l: Lancamento, status: StatusLancamento) returns (r: Outcome<Failure>)
      requires Valid()
      modifies this
      ensures Valid()
      ensures l.id.None? ==>
        r == Fail(NullPointer) && lancamentos == old(lancamentos) && proximoId == old(proximoId)
      ensures l.id.Some? && Validar(l).Fail? ==>
        r == Fail(Validar(l).error) && lancamentos == old(lancamentos) && proximoId == old(proximoId)
      ensures l.id.Some? && Validar(l).Pass? ==>
        && r == Pass
        && (l.id.value in old(lancamentos) ==>
              lancamentos == old(lancamentos)[l.id.value := l.(status := Some(status))] && proximoId == old(proximoId))
        && (l.id.value !in old(lancamentos) ==>
              lancamentos == old(lancamentos)[old(proximoId) := l.(id := Some(old(proximoId)), status := Some(status))]
              && proximoId == old(proximoId) + 1)
    {
      var atualizado := Atualizar(l.(status := Some(status)));
      r := if atualizado.Success? then Pass else Fail(atualizado.error);
    }

    /** `getById`: the stored launch with that id, if any. */
    method GetById(id: int) returns (r: Option<Lancamento>)
      requires Valid()
      ensures r.Some? <==> id in lancamentos
      ensures r.Some? ==> r.value == lancamentos[id] && r.value.id == Some(id) && Validar(r.value) == Pass
    {
      r := if id in lancamentos then Some(lancamentos[id]) else None;
    }

    /** `obterSaldoPorUsuario`: realized income minus realized expense, each
        null sum taken as zero; equal to the signed sum of the user's
        realized launches. */
    method ObterSaldoPorUsuario(idUsuario: int) returns (saldo: int)
      requires Valid()
      ensures saldo == Saldo(Tabela(), idUsuario)
      ensures saldo == SaldoDe(idUsuario)
    {
      var receitas := Soma(Tabela(), Receitas(idUsuario));
      var despesas := Soma(Tabela(), Despesas(idUsuario));
      saldo := receitas.GetOr(0) - despesas.GetOr(0);
      SaldoEhSomaDosEfeitos(Tabela(), idUsuario);
    }
  }
}
