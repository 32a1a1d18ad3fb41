/** `LancamentoServiceImpl.validar`: a fail-fast chain of field checks that
    throws a `RegraNegocioException` naming the first field that fails. */
module Validacao {
  import opened Wrappers
  import opened Entidades

  /** Number of field checks `validar` runs. */
  const NumCampos: nat := 6

  /** The message of each check, in the order the checks run. */
  const Mensagens: seq<string> := [MsgDescricao, MsgMes, MsgAno, MsgUsuario, MsgValor, MsgTipo]

  /** Check `k` (0-based, in running order) passes on `l`. This table is the
      reference against which the chain in `Validar` is proved. */
  predicate Campo(l: Lancamento, k: nat)
    requires k < NumCampos
  {
    if k == 0 then l.descricao.Some? && |l.descricao.value| > 0
    else if k == 1 then l.mes.Some? && 1 <= l.mes.value && l.mes.value <= 12
    else if k == 2 then l.ano.Some? && 1000 <= l.ano.value && l.ano.value <= 9999
    else if k == 3 then l.usuario.Some? && l.usuario.value.id.Some?
    else if k == 4 then l.valor.Some? && l.valor.value > 0
    else l.tipo.Some?
  }

  /** A launch is well-formed when every check passes. */
  predicate Valido(l: Lancamento) {
    Campo(l, 0) && Campo(l, 1) && Campo(l, 2) && Campo(l, 3) && Campo(l, 4) && Campo(l, 5)
  }

  /** The first `k` checks pass. */
  predicate Prefixo(l: Lancamento, k: nat)
    requires k <= NumCampos
  {
    k == 0 || (Prefixo(l, k - 1) && Campo(l, k - 1))
  }

  lemma {:induction false} PrefixoTodos(l: Lancamento, k: nat)
    requires k <= NumCampos
    ensures Prefixo(l, k) <==> forall j :: 0 <= j < k ==> Campo(l, j)
  {
    if k > 0 {
      PrefixoTodos(l, k - 1);
    }
  }

  /** `validar`: returns normally for a well-formed launch, otherwise throws a
      business-rule error whose message names the first failing field. */
  function Validar(l: Lancamento): (r: Outcome<Failure>)
    ensures r == Pass <==> Valido(l)
    ensures r.Fail? ==> r.error.RegraNegocio? && r.error.message in Mensagens
  {
    if l.descricao.None? || l.descricao.value == "" then
      Fail(RegraNegocio(MsgDescricao))
    else if l.mes.None? || l.mes.value < 1 || l.mes.value > 12 then
      Fail(RegraNegocio(MsgMes))
    else if l.ano.None? || l.ano.value < 1000 || l.ano.value > 9999 then
      Fail(RegraNegocio(MsgAno))
    else if l.usuario.None? || l.usuario.value.id.None? then
      Fail(RegraNegocio(MsgUsuario))
    else if l.valor.None? || l.valor.value <= 0 then
      Fail(RegraNegocio(MsgValor))
    else if l.tipo.None? then
      Fail(RegraNegocio(MsgTipo))
    else
      Pass
  }

  /** The messages are pairwise distinct, so a message identifies its check. */
  lemma MensagensDistintas()
    ensures forall i, j :: 0 <= i < j < NumCampos ==> Mensagens[i] != Mensagens[j]
  {
  }

  /** Fail-fast order: `validar` reports the message of check `k` exactly when
      every earlier check passes and check `k` fails. */
  lemma {:induction false} ValidarFalhaNoPrimeiroCampo(l: Lancamento, k: nat)
    requires k < NumCampos
    ensures Validar(l) == Fail(RegraNegocio(Mensagens[k]))
        <==> (forall j :: 0 <= j < k ==> Campo(l, j)) && !Campo(l, k)
  {
    MensagensDistintas();
    PrefixoTodos(l, k);
    if k == 0 {
    } else if k == 1 {
      assert Prefixo(l, 1) == Campo(l, 0);
    } else if k == 2 {
      assert Prefixo(l, 2) == (Campo(l, 0) && Campo(l, 1));
    } else if k == 3 {
      assert Prefixo(l, 3) == (Campo(l, 0) && Campo(l, 1) && Campo(l, 2));
    } else if k == 4 {
      assert Prefixo(l, 4) == (Campo(l, 0) && Campo(l, 1) && Campo(l, 2) && Campo(l, 3));
    } else {
      assert Prefixo(l, 5) == (Campo(l, 0) && Campo(l, 1) && Campo(l, 2) && Campo(l, 3) && Campo(l, 4));
    }
  }

  /** The sequence of calls in the service test of `validar`, field by field. */
  lemma CenarioDoTeste()
    ensures Validar(Vazio) == Fail(RegraNegocio(MsgDescricao))
    ensures Validar(Vazio.(descricao := Some(""))) == Fail(RegraNegocio(MsgDescricao))
    ensures Validar(Vazio.(descricao := Some("Salario"))) == Fail(RegraNegocio(MsgMes))
    ensures Validar(Vazio.(descricao := Some("Salario"), ano := Some(0))) == Fail(RegraNegocio(MsgMes))
    ensures Validar(Vazio.(descricao := Some("Salario"), ano := Some(13))) == Fail(RegraNegocio(MsgMes))
    ensures Validar(Vazio.(descricao := Some("Salario"), ano := Some(13), mes := Some(1)))
         == Fail(RegraNegocio(MsgAno))
    ensures Validar(Vazio.(descricao := Some("Salario"), ano := Some(202), mes := Some(1)))
         == Fail(RegraNegocio(MsgAno))
    ensures Validar(Vazio.(descricao := Some("Salario"), ano := Some(2020), mes := Some(1)))
         == Fail(RegraNegocio(MsgUsuario))
    ensures Validar(Vazio.(descricao := Some("Salario"), ano := Some(2020), mes := Some(1),
                           usuario := Some(Usuario(None, "", "", ""))))
         == Fail(RegraNegocio(MsgUsuario))
    ensures Validar(Vazio.(descricao := Some("Salario"), ano := Some(2020), mes := Some(1),
                           usuario := Some(Usuario(Some(1), "", "", ""))))
         == Fail(RegraNegocio(MsgValor))
    ensures Validar(Vazio.(descricao := Some("Salario"), ano := Some(2020), mes := Some(1),
                           usuario := Some(Usuario(Some(1), "", "", "")), valor := Some(0)))
         == Fail(RegraNegocio(MsgValor))
    ensures Validar(Vazio.(descricao := Some("Salario"), ano := Some(2020), mes := Some(1),
                           usuario := Some(Usuario(Some(1), "", "", "")), valor := Some(100)))
         == Fail(RegraNegocio(MsgTipo))
  {
  }
}
