# Minhas Finanças: launch rules and user authentication, in Dafny

This project models the two rule sets of the *minhasfinancas* personal-finance
ledger.

1. **Launches (`Lancamento`).** `validar` is the fail-fast field validator. `salvar`,
   `atualizar`, `deletar`, `atualizarStatus` and `getById` run over the launch
   table. `obterSaldoPorUsuario` computes a user's balance as realized income minus
   realized expense. It reads two results of the repository's
   select-sum-where query.
2. **Users (`Usuario`).** `autenticar` looks a user up by email and then compares
   the password for plain equality. `cadastrarUsuario` checks that the email is
   unique and then saves. The service also has `validarEmail` and `getById`.

Files and modules:

- `wrappers.dfy` (`Wrappers`): `Option` stands for nullable fields and `Optional`
  results. `Result` and `Outcome` stand for calls that return or throw.
- `entidades.dfy` (`Entidades`): the records, with every launch field
  nullable. It also holds the enumerations `TipoLancamento` and
  `StatusLancamento`, and the exceptions (`Failure`) with their exact messages.
  Amounts are exact integers in cents. They are never reals.
- `validacao.dfy` (`Validacao`): `validar`, and the table of its six checks.
- `repositorio.dfy` (`Repositorio`): the sum query, as a recursive filter-and-sum
  over the table's rows.
- `saldo.dfy` (`Saldos`): the balance, and a signed row-by-row reference
  definition of it.
- `lancamento_servico.dfy` (`LancamentoServico`): the launch service, as a class.
  It holds the launch table (`map` from id to launch) and the next identity value.
- `usuario_servico.dfy` (`UsuarioServico`): the user service, as a class over
  the user table.

`LancamentoServico.LancamentoService` models `LancamentoServiceImpl`. The
source of that class is not available, so its behaviour is taken from its test,
`LancamentoServiceTest.java`. That test
fixes the order of the checks, the messages, the id preconditions and the balance.
Where the test does not decide a check, the model follows the
intended rule:

- A description must be non-empty. The model does not trim it.
- A month must lie in 1..12. The test sets `ano` at lines 198 and 203, so it only
  exercises month absent.
- A year must have four digits, 1000..9999. The test rejects 13 and 202 and
  accepts 2020.
- An amount must be strictly positive. The test rejects 0 and accepts 1.

The repository's `save` is modelled with Spring Data semantics:

- A launch with no id is inserted under the next generated identity value. So is
  a launch whose id is not stored.
- A launch whose id is stored overwrites that row.
- `delete` removes the row with the launch's id, or does nothing when no row has
  that id.

The repository as written (`LancamentoRepository.java:15-20`) sums launches of
every status. The service test (`LancamentoServiceTest.java:249-255`) calls a
three-argument version restricted to `REALIZADO`. The model has both: the
`Criterio` status field is `None` for the query as written. The balance uses the
realized-only form that the service test exercises. "## Findings" records the
difference.

## Model

| member | source | states |
|---|---|---|
| `Validacao.Validar` | src/test/java/io/github/grsantos13/minhasfinancas/service/LancamentoServiceTest.java:181-243 | returns normally exactly when all six field checks pass. Otherwise it throws a business-rule error whose message is one of the six validation messages |
| `Validacao.ValidarFalhaNoPrimeiroCampo` | src/test/java/io/github/grsantos13/minhasfinancas/service/LancamentoServiceTest.java:183-241 | fail-fast order (description, month, year, user, amount, type): the message of check k is reported if and only if every earlier check passes and check k fails |
| `Validacao.CenarioDoTeste` | src/test/java/io/github/grsantos13/minhasfinancas/service/LancamentoServiceTest.java:182-243 | each step of the validation test gives the message the test expects: the empty launch, `""`, month absent whatever the year, years 13 and 202, user absent and user without id, amount absent and zero, type absent |
| `Repositorio.Soma` | src/main/java/io/github/grsantos13/minhasfinancas/model/repository/LancamentoRepository.java:15-20 | the query yields null if and only if no row of the user and type (and status, when given) has a non-null amount |
| `Repositorio.Juntar` | src/main/java/io/github/grsantos13/minhasfinancas/model/repository/LancamentoRepository.java:15 | combining two partial SQL sums: null only when both are null, and with null read as zero the totals add |
| `Repositorio.SomaUnitaria` | src/main/java/io/github/grsantos13/minhasfinancas/model/repository/LancamentoRepository.java:15-17 | a single row contributes its amount exactly when its user id and type match (and status, when given) and the amount is present |
| `Repositorio.SomaConcat` | src/main/java/io/github/grsantos13/minhasfinancas/model/repository/LancamentoRepository.java:15-19 | the sum over two blocks of rows is the combination of the two sums. With `SomaUnitaria` this makes the result the exact sum of the matching amounts |
| `Repositorio.SomaEhTotal` | src/main/java/io/github/grsantos13/minhasfinancas/model/repository/LancamentoRepository.java:15-19 | the query's result, null read as zero, is exactly the row-by-row sum of the matching amounts |
| `Repositorio.SomaPermutacao` | src/main/java/io/github/grsantos13/minhasfinancas/model/repository/LancamentoRepository.java:15-18 | the result does not depend on the order of the rows |
| `Repositorio.SomaPositiva` | src/main/java/io/github/grsantos13/minhasfinancas/model/repository/LancamentoRepository.java:15 | when every matching amount is positive, a present sum is positive |
| `Saldos.SaldoEhSomaDosEfeitos` | src/test/java/io/github/grsantos13/minhasfinancas/service/LancamentoServiceTest.java:245-261 | income sum minus expense sum, each null taken as zero, equals the signed sum of the user's realized launches |
| `Saldos.SaldoUnitario` | src/test/java/io/github/grsantos13/minhasfinancas/service/LancamentoServiceTest.java:249-255 | one launch adds its amount if it is a realized income of the user, subtracts it if it is a realized expense of the user, and adds nothing otherwise |
| `Saldos.SaldoConcat` | src/test/java/io/github/grsantos13/minhasfinancas/service/LancamentoServiceTest.java:245-261 | the balance over two blocks of rows is the sum of their balances |
| `Saldos.SaldoPermutacao` | src/test/java/io/github/grsantos13/minhasfinancas/service/LancamentoServiceTest.java:245-261 | the balance does not depend on the order in which rows are read |
| `Saldos.SaldoIgnoraSemEfeito` | src/test/java/io/github/grsantos13/minhasfinancas/service/LancamentoServiceTest.java:249-255 | a launch that is not realized, or that belongs to another user, does not change the balance |
| `Saldos.SaldoSemLancamentos` | src/test/java/io/github/grsantos13/minhasfinancas/service/LancamentoServiceTest.java:257 | a user with no launches has balance 0: both sums are null and are read as zero |
| `Saldos.SaldoDoTeste` | src/test/java/io/github/grsantos13/minhasfinancas/service/LancamentoServiceTest.java:245-261 | realized income 100 and realized expense 50 give 50. Income 100 alone gives 100 |
| `Saldos.ConsultaComoEscritaSomaPendentes` | src/main/java/io/github/grsantos13/minhasfinancas/model/repository/LancamentoRepository.java:19-20 | the query as written sums a pending income of 100 to 100. The realized-only query gives null, and the balance stays 0 |
| `LancamentoServico.LancamentoService.TabelaListaArmazenados` | src/main/java/io/github/grsantos13/minhasfinancas/model/repository/LancamentoRepository.java:15-16 | the rows the sum query reads are exactly the stored launches |
| `LancamentoServico.LancamentoService.SaldoEmQualquerOrdem` | src/main/java/io/github/grsantos13/minhasfinancas/model/repository/LancamentoRepository.java:15-18 | reading the stored rows in any order gives the same balance |
| `LancamentoServico.LancamentoService.Persistir` | src/main/java/io/github/grsantos13/minhasfinancas/model/repository/LancamentoRepository.java:13 | `save`: inserts under the next identity value when the id is absent or not stored, otherwise overwrites that row. The balance changes by the new row's effect minus the replaced row's |
| `LancamentoServico.LancamentoService.Salvar` | src/test/java/io/github/grsantos13/minhasfinancas/service/LancamentoServiceTest.java:46-69 | a launch that fails validation returns that error and leaves the table unchanged. Otherwise the launch is saved with status PENDENTE and an id, and the stored row is the returned launch. A new launch leaves every balance unchanged |
| `LancamentoServico.LancamentoService.Atualizar` | src/test/java/io/github/grsantos13/minhasfinancas/service/LancamentoServiceTest.java:71-93 | a null id throws NullPointerException and leaves the table unchanged. A launch that fails validation returns that error and leaves the table unchanged. Otherwise exactly one save: when the id is stored, that row is overwritten; when it is not, save inserts the launch under the next identity value and the given id stays absent |
| `LancamentoServico.LancamentoService.Deletar` | src/test/java/io/github/grsantos13/minhasfinancas/service/LancamentoServiceTest.java:95-113 | a null id throws NullPointerException and leaves the table unchanged. Otherwise the row with that id is removed and nothing else. Balances lose exactly that row's effect |
| `LancamentoServico.LancamentoService.AtualizarStatus` | src/main/java/io/github/grsantos13/minhasfinancas/service/LancamentoService.java:19 | sets the status, from whatever it was, and then behaves as `atualizar`. No transition is forbidden |
| `LancamentoServico.LancamentoService.GetById` | src/test/java/io/github/grsantos13/minhasfinancas/service/LancamentoServiceTest.java:153-179 | present if and only if the id is stored, and then the stored, valid launch with that id. The table is only read |
| `LancamentoServico.LancamentoService.ObterSaldoPorUsuario` | src/test/java/io/github/grsantos13/minhasfinancas/service/LancamentoServiceTest.java:245-261 | realized income minus realized expense over the table, each null taken as zero. This equals the signed sum of the user's realized launches |
| `UsuarioServico.UsuarioService.Autenticar` | src/main/java/io/github/grsantos13/minhasfinancas/service/impl/UsuarioServiceImpl.java:22-32 | an unknown email fails with "Usuário não encontrado." whatever the password. A known email with a different password fails with "Senha incorreta.". An equal password returns the stored user itself. The table is only read |
| `UsuarioServico.UsuarioService.ValidarEmail` | src/main/java/io/github/grsantos13/minhasfinancas/service/impl/UsuarioServiceImpl.java:41-46 | fails with "Já existe um usuário cadastrado com esse e-mail." if and only if a stored user has that email |
| `UsuarioServico.UsuarioService.CadastrarUsuario` | src/main/java/io/github/grsantos13/minhasfinancas/service/impl/UsuarioServiceImpl.java:34-39 | a duplicate email fails with the business error, with no save. Otherwise the user is saved with an assigned id and becomes the one user with that email. Emails stay unique |
| `UsuarioServico.UsuarioService.GetById` | src/main/java/io/github/grsantos13/minhasfinancas/service/impl/UsuarioServiceImpl.java:48-51 | present if and only if a user with that id is stored, and then that user. The table is only read |

## Left out

- `buscar` (query by example) is left out. Its test only passes a mocked list
  through, and the matching rules belong to reflection-based example matching in
  the persistence library.
- `dataCadastro`, the creation timestamp set by JPA auditing, is not a field of
  the model. It is a clock value, not logic.
- Null arguments are not modelled: a null id passed to `getById` or
  `obterSaldoPorUsuario`, and a null email or password. The fields of `Usuario`
  other than its id are plain strings, and `Usuario.java` is not part of this model.
- In Java, `setStatus` inside `salvar` and inside `atualizarStatus` mutates the
  caller's object, and after `atualizarStatus` the new status stays on that
  object even when `atualizar` throws. `Salvar` and `AtualizarStatus` take the
  launch as a value and leave the caller's copy as it was, so the model does not
  capture this aliasing.
- An update whose id is not stored is not rejected. `atualizar` only checks that
  the id is present and then calls the repository's save, which inserts a
  launch with an unknown id as a new row under a fresh id. The rule that an
  update must not create records is therefore not enforced, and `Atualizar`
  models the insert as it happens.
- Transactions and the race between the email check and the save in
  `cadastrarUsuario` are left out. These are concurrency and persistence concerns.
- Ids are unbounded integers. The 64-bit width of the identity column is not
  modelled, because no logic depends on it.
- Amounts are integers in cents. `BigDecimal` values with more than two decimal
  places are not modelled.
- Plaintext password storage is modelled as it is: plain string equality.
- HTTP routing, status codes and DTOs are transport glue, and Spring Boot
  bootstrapping is framework behaviour. Both are left out.

## Findings

| source | as written | input that shows it | evidently intended | confidence | as-written member | corrected member |
|---|---|---|---|---|---|---|
| src/main/java/io/github/grsantos13/minhasfinancas/model/repository/LancamentoRepository.java:15-20 | the sum query takes only the user id and the type, so it sums launches of every status | one PENDENTE income of 100 for user 1: the query returns 100 | sum only launches of the given status, REALIZADO for the balance. This is the three-argument call at LancamentoServiceTest.java:249-255 | not executed | `Saldos.ConsultaComoEscritaSomaPendentes` | `Saldos.SaldoIgnoraSemEfeito` |
