/** `UsuarioServiceImpl`: authentication by email and password, and
    registration with a unique email, over the user table. */
module UsuarioServico {
  import opened Wrappers
  import opened Entidades

  class UsuarioService {
    /** The user table, by id. */
    var usuarios: map<int, Usuario>
    /** The next value of the table's identity column. */
    var proximoId: nat

    /** Every stored user carries its own id, below the next generated id,
        and no two stored users share an email. */
    ghost predicate Valid()
      reads this
    {
      && proximoId >= 1
      && (forall k :: k in usuarios ==> 1 <= k < proximoId && usuarios[k].id == Some(k))
      && (forall j, k :: j in usuarios && k in usuarios && usuarios[j].email == usuarios[k].email ==> j == k)
    }

    /** `usuarioRepository.existsByEmail`. */
    predicate ExisteEmail(email: string)
      reads this
    {
      exists k :: k in usuarios && usuarios[k].email == email
    }

    constructor ()
      ensures Valid() && usuarios == map[] && proximoId == 1
    {
      usuarios := map[];
      proximoId := 1;
    }

    /** `autenticar`: an unknown email fails with "user not found", whatever
        the password; a known email fails with "wrong password" unless the
        password is exactly equal, and then the stored user itself is
        returned. The table is only read. */
    method Autenticar(email: string, senha: string) returns (r: Result<Usuario, Failure>)
      requires Valid()
      ensures !ExisteEmail(email) ==> r == Failure(ErroDeAutenticacao(MsgUsuarioNaoEncontrado))
      ensures forall k :: k in usuarios && usuarios[k].email == email ==>
        r == if usuarios[k].senha == senha then Success(usuarios[k])
             else Failure(ErroDeAutenticacao(MsgSenhaIncorreta))
    {
      if k :| k in usuarios && usuarios[k].email == email {
        var usuario := usuarios[k];
        if usuario.senha != senha {
          return Failure(ErroDeAutenticacao(MsgSenhaIncorreta));
        }
        r := Success(usuario);
      } else {
        r := Failure(ErroDeAutenticacao(MsgUsuarioNaoEncontrado));
      }
    }

    /** `validarEmail`: fails with the duplicate-email business error exactly
        when some stored user has that email. */
    method ValidarEmail(email: string) returns (r: Outcome<Failure>)
      ensures r.Fail? <==> ExisteEmail(email)
      ensures r.Fail? ==> r.error == RegraNegocio(MsgEmailDuplicado)
    {
      r := if ExisteEmail(email) then Fail(RegraNegocio(MsgEmailDuplicado)) else Pass;
    }

    /** `cadastrarUsuario`: checks the email, then saves. A duplicate email
        fails and leaves the table unchanged. Otherwise `usuarioRepository.save`
        inserts the user under the next generated id (or overwrites the row
        of a stored id), and the new user is the one registered under that
        email, which is what `autenticar` later finds. */
    method CadastrarUsuario(usuario: Usuario) returns (r: Result<Usuario, Failure>)
      requires Valid()
      modifies this
      ensures Valid()
      ensures old(ExisteEmail(usuario.email)) ==>
        && r == Failure(RegraNegocio(MsgEmailDuplicado))
        && usuarios == old(usuarios) && proximoId == old(proximoId)
      ensures !old(ExisteEmail(usuario.email)) ==>
        && r.Success? && r.value.id.Some? && r.value == usuario.(id := r.value.id)
        && usuarios == old(usuarios)[r.value.id.value := r.value]
        && forall k :: k in usuarios && usuarios[k].email == usuario.email ==> usuarios[k] == r.value
      ensures !old(ExisteEmail(usuario.email)) && usuario.id.Some? && usuario.id.value in old(usuarios) ==>
        r.value.id == usuario.id && proximoId == old(proximoId)
      ensures !old(ExisteEmail(usuario.email)) && (usuario.id.None? || usuario.id.value !in old(usuarios)) ==>
        r.value.id == Some(old(proximoId)) && proximoId == old(proximoId) + 1
    {
      var v := ValidarEmail(usuario.email);
      if v.Fail? {
        return Failure(v.error);
      }
      var salvo;
      if usuario.id.Some? && usuario.id.value in usuarios {
        salvo := usuario;
      } else {
        salvo := usuario.(id := Some(proximoId));
        proximoId := proximoId + 1;
      }
      usuarios := usuarios[salvo.id.value := salvo];
      r := Success(salvo);
    }

    /** `getById`: the stored user with that id, if any. */
    method GetById(id: int) returns (r: Option<Usuario>)
      requires Valid()
      ensures r.Some? <==> id in usuarios
      ensures r.Some? ==> r.value == usuarios[id] && r.value.id == Some(id)
    {
      r := if id in usuarios then Some(usuarios[id]) else None;
    }
  }
}
