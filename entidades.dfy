/** The records of the ledger (`Lancamento`, `Usuario`), their enumerations,
    and the exceptions the services throw, with their exact messages. */
module Entidades {
  import opened Wrappers

  /** `TipoLancamento`: income or expense. */
  datatype TipoLancamento = Receita | Despesa

  /** `StatusLancamento`: pending, realized or cancelled. */
  datatype StatusLancamento = Pendente | Realizado | Cancelado

  /** A user record: the identifier is absent until the user is persisted. */
  datatype Usuario = Usuario(id: Option<int>, nome: string, email: string, senha: string)

  /** A launch record. Every field is a boxed Java value and may be null.
      `valor` is an exact amount in cents (a `BigDecimal` in the source). */
  datatype Lancamento = Lancamento(
    id: Option<int>,
    descricao: Option<string>,
    mes: Option<int>,
    ano: Option<int>,
    usuario: Option<Usuario>,
    valor: Option<int>,
    tipo: Option<TipoLancamento>,
    status: Option<StatusLancamento>)

  /** A launch built with the no-argument constructor: every field null. */
  const Vazio: Lancamento := Lancamento(None, None, None, None, None, None, None, None)

  /** The exceptions thrown by the services. */
  datatype Failure =
    | RegraNegocio(message: string)        // RegraNegocioException
    | ErroDeAutenticacao(message: string)  // ErroDeAutenticacao
    | NullPointer                          // NullPointerException from `requireNonNull(id)`

  const MsgDescricao: string := "Informe uma descrição válida."
  const MsgMes: string := "Informe um mês válido."
  const MsgAno: string := "Informe um ano válido."
  const MsgUsuario: string := "Informe um usuário válido."
  const MsgValor: string := "Informe um valor válido."
  const MsgTipo: string := "Informe um tipo de lançamento."
  const MsgUsuarioNaoEncontrado: string := "Usuário não encontrado."
  const MsgSenhaIncorreta: string := "Senha incorreta."
  const MsgEmailDuplicado: string := "Já existe um usuário cadastrado com esse e-mail."
}
