/** Jackute: the business core behind the facade, holding the user store and the session
    table. Every method is proved to do what the rule of the same name in RegrasJackute
    says, on the value of the two (Abs); the invariant RegrasJackute.Inv is proved to be
    kept by those rules, and so by the methods. */
module Jackut {
  import opened Erros
  import opened Colecoes
  import opened Recados
  import opened Perfis
  import opened Usuarios
  import R = RegrasUsuarios
  import S = Sessoes
  import GU = GerenciamentoUsuarios
  import RJ = RegrasJackute

  class Jackute {
    const usuarios: GU.GerenciadorUsuarios
    const sessoes: S.GerenciadorSessoes

    /** The value of the system: the accounts and the session table. */
    ghost function Abs(): RJ.Estado
      reads this, usuarios, usuarios.usuarios.Values, usuarios.PerfisDe(), sessoes
    {
      RJ.Estado(usuarios.Abs(), sessoes.sessoes)
    }

    /** The store's records are well formed. */
    ghost predicate Valid()
      reads this, usuarios, usuarios.usuarios.Values, usuarios.PerfisDe(), sessoes
    {
      usuarios.Valid()
    }

    constructor ()
      ensures Valid() && Abs() == RJ.Zerar() && RJ.Inv(Abs())
      ensures fresh(usuarios) && fresh(sessoes)
    {
      usuarios := new GU.GerenciadorUsuarios();
      sessoes := new S.GerenciadorSessoes();
      RJ.ZerarPreservaInv();
    }

    method CriarUsuario(login: string, senha: string, nome: string) returns (r: Result<()>)
      requires Valid()
      modifies usuarios
      ensures Valid()
      ensures r == RJ.CriarUsuario(old(Abs()), login, senha, nome).saida
      ensures Abs() == RJ.CriarUsuario(old(Abs()), login, senha, nome).depois
      ensures RJ.Inv(old(Abs())) ==> RJ.Inv(Abs())
    {
      ghost var e := Abs();
      if RJ.Inv(e) {
        RJ.CriarUsuarioPreservaInv(e, login, senha, nome);
      }
      var v := RJ.ValidarCredenciais(login, senha);
      if v.Err? {
        return Err(v.erro);
      }
      r := usuarios.CriarUsuario(login, senha, nome);
    }

    /** `id` stands for the token the session table draws at random. */
    method AbrirSessao(login: string, senha: string, id: string) returns (r: Result<string>)
      requires Valid()
      modifies sessoes
      ensures Valid()
      ensures r == RJ.AbrirSessao(old(Abs()), login, senha, id).saida
      ensures Abs() == RJ.AbrirSessao(old(Abs()), login, senha, id).depois
      ensures RJ.Inv(old(Abs())) ==> RJ.Inv(Abs())
    {
      ghost var e := Abs();
      if RJ.Inv(e) {
        RJ.AbrirSessaoPreservaInv(e, login, senha, id);
      }
      var usuario := usuarios.GetUsuario(login);
      if usuario.Err? || usuario.value.senha != senha {
        r := Err(LoginOuSenhaInvalidos);
      } else {
        assert e.contas[login] == usuario.value.State();
        r := sessoes.CriarSessao(login, id);
      }
    }

    /** getAtributoUsuario. */
    function GetAtributoUsuario(login: string, atributo: string): (r: Result<string>)
      reads this, usuarios, usuarios.usuarios.Values, usuarios.PerfisDe(), sessoes
      ensures r == RJ.GetAtributoUsuario(Abs(), login, atributo)
    {
      var usuario :- usuarios.GetUsuario(login);
      usuario.perfil.GetAtributo(atributo)
    }

    /** getUsuarioPorSessao: the record of the session's login, or UsuarioNaoEncontrado. */
    function GetUsuarioPorSessao(idSessao: string): (r: Result<Usuario>)
      reads this, usuarios, sessoes
      ensures r.Ok? <==> idSessao in sessoes.sessoes && sessoes.sessoes[idSessao] in usuarios.usuarios
      ensures r.Ok? ==> r.value == usuarios.usuarios[sessoes.sessoes[idSessao]]
      ensures r.Err? ==> r.erro == UsuarioNaoEncontrado
    {
      match sessoes.GetLogin(idSessao)
      case None => Err(UsuarioNaoEncontrado)
      case Some(login) => usuarios.GetUsuario(login)
    }

    method EditarPerfil(idSessao: string, atributo: string, valor: string) returns (r: Result<()>)
      requires Valid()
      modifies usuarios.PerfisDe()
      ensures Valid()
      ensures r == RJ.EditarPerfil(old(Abs()), idSessao, atributo, valor).saida
      ensures Abs() == RJ.EditarPerfil(old(Abs()), idSessao, atributo, valor).depois
      ensures RJ.Inv(old(Abs())) ==> RJ.Inv(Abs())
    {
      ghost var e := Abs();
      if RJ.Inv(e) {
        RJ.EditarPerfilPreservaInv(e, idSessao, atributo, valor);
      }
      ghost var db := usuarios.Abs();
      var usuario :- GetUsuarioPorSessao(idSessao);
      ghost var l := sessoes.sessoes[idSessao];
      ghost var c := usuario.State();
      assert db[l] == c;
      assert usuario.perfil in usuarios.PerfisDe();
      usuario.perfil.SetAtributo(atributo, valor);
      usuarios.SoPerfilMudou(l);
      assert usuarios.usuarios[l].State() == c.(perfil := c.perfil[atributo := valor]);
      r := Ok(());
    }

    method AdicionarAmigo(idSessao: string, amigoLogin: string) returns (r: Result<()>)
      requires Valid()
      modifies usuarios.usuarios.Values
      ensures Valid()
      ensures r == RJ.AdicionarAmigo(old(Abs()), idSessao, amigoLogin).saida
      ensures Abs() == RJ.AdicionarAmigo(old(Abs()), idSessao, amigoLogin).depois
      ensures RJ.Inv(old(Abs())) ==> RJ.Inv(Abs())
    {
      ghost var e := Abs();
      if RJ.Inv(e) {
        RJ.AdicionarAmigoPreservaInv(e, idSessao, amigoLogin);
      }
      var usuario :- GetUsuarioPorSessao(idSessao);
      assert usuarios.Abs()[sessoes.sessoes[idSessao]] == usuario.State();
      r := usuarios.AdicionarAmigo(usuario.login, amigoLogin);
    }

    /** ehAmigo: the store's saoAmigos. */
    function EhAmigo(login1: string, login2: string): (r: Result<bool>)
      reads this, usuarios, usuarios.usuarios.Values, usuarios.PerfisDe()
      ensures r == R.SaoAmigos(usuarios.Abs(), login1, login2)
    {
      usuarios.SaoAmigos(login1, login2)
    }

    /** getAmigos: the store's listarAmigos. */
    function GetAmigos(login: string): (r: Result<string>)
      reads this, usuarios, usuarios.usuarios.Values, usuarios.PerfisDe()
      requires usuarios.Valid()
      ensures r == R.ListarAmigos(usuarios.Abs(), login)
    {
      usuarios.ListarAmigos(login)
    }

    method EnviarRecado(idSessao: string, destinatario: string, mensagem: string) returns (r: Result<()>)
      requires Valid()
      modifies usuarios.usuarios.Values
      ensures Valid()
      ensures r == RJ.EnviarRecado(old(Abs()), idSessao, destinatario, mensagem).saida
      ensures Abs() == RJ.EnviarRecado(old(Abs()), idSessao, destinatario, mensagem).depois
      ensures RJ.Inv(old(Abs())) ==> RJ.Inv(Abs())
    {
      ghost var e := Abs();
      if RJ.Inv(e) {
        RJ.EnviarRecadoPreservaInv(e, idSessao, destinatario, mensagem);
      }
      var remetente := GetUsuarioPorSessao(idSessao);
      var dest := usuarios.GetUsuario(destinatario);
      if remetente.Err? {
        r := Err(remetente.erro);
      } else if dest.Err? {
        r := Err(dest.erro);
      } else if remetente.value.login == destinatario {
        r := Err(AutoMensagem(RJ.MsgAutoMensagem));
      } else {
        var m := Recado(remetente.value.login, mensagem);
        Entregar(destinatario, m);
        r := Ok(());
      }
    }

    /** adicionarRecado on the recipient's record: its queue gets the message at the tail. */
    method Entregar(destinatario: string, m: Recado)
      requires usuarios.Valid() && destinatario in usuarios.usuarios
      modifies usuarios.usuarios[destinatario]
      ensures usuarios.Valid() && usuarios.usuarios == old(usuarios.usuarios)
      ensures usuarios.Abs() == old(usuarios.Abs())[destinatario := old(usuarios.Abs())[destinatario].ComRecado(m)]
    {
      var dest := usuarios.usuarios[destinatario];
      ghost var cd := dest.State();
      assert old(usuarios.Abs())[destinatario] == cd;
      dest.AdicionarRecado(m);
      usuarios.SoUmMudou(destinatario);
      assert usuarios.usuarios[destinatario].State() == cd.ComRecado(m);
    }

    method LerRecado(idSessao: string) returns (r: Result<string>)
      requires Valid()
      modifies usuarios.usuarios.Values
      ensures Valid()
      ensures r == RJ.LerRecado(old(Abs()), idSessao).saida
      ensures Abs() == RJ.LerRecado(old(Abs()), idSessao).depois
      ensures RJ.Inv(old(Abs())) ==> RJ.Inv(Abs())
    {
      ghost var e := Abs();
      if RJ.Inv(e) {
        RJ.LerRecadoPreservaInv(e, idSessao);
      }
      ghost var db := e.contas;
      var usuario :- GetUsuarioPorSessao(idSessao);
      ghost var l := sessoes.sessoes[idSessao];
      ghost var c := usuario.State();
      assert db[l] == c;
      r := usuario.LerRecado();
      usuarios.SoUmMudou(l);
      assert usuarios.usuarios[l].State() == c.LerRecado().depois;
      assert Abs() == RJ.LerRecado(e, idSessao).depois;
    }

    method Zerar()
      requires Valid()
      modifies usuarios, sessoes
      ensures Valid() && Abs() == RJ.Zerar() && RJ.Inv(Abs())
    {
      usuarios.Zerar();
      sessoes.Zerar();
      RJ.ZerarPreservaInv();
    }
  }
}
