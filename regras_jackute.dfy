/** The rules of Jackute, the business core behind the facade, stated on values: the state
    is the user store together with the session table, and every operation is a function
    from the state before to the outcome it reports and the state after. The class Jackute
    is proved to follow these functions. */
module RegrasJackute {
  import opened Erros
  import opened Colecoes
  import opened Recados
  import opened Perfis
  import opened Usuarios
  import R = RegrasUsuarios
  import S = Sessoes

  datatype Estado = Estado(contas: R.Contas, sessoes: S.Tabela)

  const MsgAutoMensagem := "Usuário não pode enviar recado para si mesmo."

  /** validarCredenciais: the login is checked before the password. */
  function ValidarCredenciais(login: string, senha: string): (r: Result<()>)
    ensures r.Ok? <==> !IsBlank(login) && !IsBlank(senha)
    ensures IsBlank(login) ==> r == Err(LoginInvalido)
    ensures !IsBlank(login) && IsBlank(senha) ==> r == Err(SenhaInvalida)
  {
    if IsBlank(login) then Err(LoginInvalido)
    else if IsBlank(senha) then Err(SenhaInvalida)
    else Ok(())
  }

  /** criarUsuario: the credentials are validated, then the store creates the account. */
  function CriarUsuario(e: Estado, login: string, senha: string, nome: string): Passo<(), Estado> {
    match ValidarCredenciais(login, senha)
    case Err(x) => Passo(Err(x), e)
    case Ok(_) =>
      var p := R.CriarUsuario(e.contas, login, senha, nome);
      Passo(p.saida, e.(contas := p.depois))
  }

  /** abrirSessao: an unknown login and a wrong password both become LoginOuSenhaInvalidos;
      `id` stands for the token the session table would draw. */
  function AbrirSessao(e: Estado, login: string, senha: string, id: string): Passo<string, Estado> {
    if login !in e.contas || e.contas[login].senha != senha then Passo(Err(LoginOuSenhaInvalidos), e)
    else
      var p := S.Criar(e.sessoes, login, id);
      Passo(p.saida, e.(sessoes := p.depois))
  }

  /** getAtributoUsuario. */
  function GetAtributoUsuario(e: Estado, login: string, atributo: string): (r: Result<string>)
    ensures login !in e.contas ==> r == Err(UsuarioNaoEncontrado)
    ensures login in e.contas ==> r == Atributo(e.contas[login].perfil, atributo)
  {
    var c :- R.GetUsuario(e.contas, login);
    Atributo(c.perfil, atributo)
  }

  /** getUsuarioPorSessao, by the key of the account found: a token with no session and a
      session whose login has no account both fail with UsuarioNaoEncontrado. */
  function LoginDaSessao(e: Estado, id: string): (r: Result<string>)
    ensures r.Ok? <==> id in e.sessoes && e.sessoes[id] in e.contas
    ensures r.Ok? ==> r.value == e.sessoes[id]
    ensures r.Err? ==> r.erro == UsuarioNaoEncontrado
  {
    match S.Consultar(e.sessoes, id)
    case None => Err(UsuarioNaoEncontrado)
    case Some(l) => if l in e.contas then Ok(l) else Err(UsuarioNaoEncontrado)
  }

  /** editarPerfil: sets one attribute on the profile of the session's user. */
  function EditarPerfil(e: Estado, id: string, atributo: string, valor: string): Passo<(), Estado> {
    match LoginDaSessao(e, id)
    case Err(x) => Passo(Err(x), e)
    case Ok(l) =>
      var c := e.contas[l];
      Passo(Ok(()), e.(contas := e.contas[l := c.(perfil := c.perfil[atributo := valor])]))
  }

  /** adicionarAmigo: the store's handshake, on behalf of the session's user. */
  function AdicionarAmigo(e: Estado, id: string, amigo: string): Passo<(), Estado> {
    match LoginDaSessao(e, id)
    case Err(x) => Passo(Err(x), e)
    case Ok(l) =>
      var p := R.AdicionarAmigo(e.contas, e.contas[l].login, amigo);
      Passo(p.saida, e.(contas := p.depois))
  }

  /** enviarRecado of this layer: the session, then the recipient's lookup, then the
      self-send check; enmity is not checked here. */
  function EnviarRecado(e: Estado, id: string, destinatario: string, mensagem: string): Passo<(), Estado> {
    match LoginDaSessao(e, id)
    case Err(x) => Passo(Err(x), e)
    case Ok(l) =>
      if destinatario !in e.contas then Passo(Err(UsuarioNaoEncontrado), e)
      else if e.contas[l].login == destinatario then Passo(Err(AutoMensagem(MsgAutoMensagem)), e)
      else
        var m := Recado(e.contas[l].login, mensagem);
        Passo(Ok(()), e.(contas := e.contas[destinatario := e.contas[destinatario].ComRecado(m)]))
  }

  /** lerRecado: the session's user reads the head of its queue. */
  function LerRecado(e: Estado, id: string): Passo<string, Estado> {
    match LoginDaSessao(e, id)
    case Err(x) => Passo(Err(x), e)
    case Ok(l) =>
      var p := e.contas[l].LerRecado();
      Passo(p.saida, e.(contas := e.contas[l := p.depois]))
  }

  /** zerar: no accounts and no sessions. */
  function Zerar(): (e: Estado)
    ensures e.contas == map[] && e.sessoes == map[]
  {
    Estado(map[], map[])
  }

  // ---------------------------------------------------------------------------
  // The invariant

  /** The store's invariant, no account under a blank login, and every session names an
      account. */
  ghost predicate Inv(e: Estado) {
    && R.Inv(e.contas)
    && (forall l :: l in e.contas ==> !IsBlank(l))
    && (forall id :: id in e.sessoes ==> e.sessoes[id] in e.contas)
  }

  lemma ZerarPreservaInv()
    ensures Inv(Zerar())
  {
    R.InvVazio();
  }

  lemma CriarUsuarioPreservaInv(e: Estado, login: string, senha: string, nome: string)
    requires Inv(e)
    ensures Inv(CriarUsuario(e, login, senha, nome).depois)
  {
    R.CriarUsuarioPreservaInv(e.contas, login, senha, nome);
  }

  lemma AbrirSessaoPreservaInv(e: Estado, login: string, senha: string, id: string)
    requires Inv(e)
    ensures Inv(AbrirSessao(e, login, senha, id).depois)
  {
  }

  /** A new store with the same logins and the store invariant keeps the whole invariant. */
  lemma MesmasChaves(e: Estado, db': R.Contas)
    requires Inv(e) && R.Inv(db') && db'.Keys == e.contas.Keys
    ensures Inv(e.(contas := db'))
  {
  }

  /** Changing one profile value keeps "nome" and every relation. */
  lemma EditarPerfilPreservaInv(e: Estado, id: string, atributo: string, valor: string)
    requires Inv(e)
    ensures Inv(EditarPerfil(e, id, atributo, valor).depois)
  {
    if LoginDaSessao(e, id).Ok? {
      var l := e.sessoes[id];
      var c := e.contas[l];
      var db' := e.contas[l := c.(perfil := c.perfil[atributo := valor])];
      PerfilEditado(e.contas, l, atributo, valor);
      MesmasChaves(e, db');
    }
  }

  lemma PerfilEditado(db: R.Contas, l: string, atributo: string, valor: string)
    requires R.Inv(db) && l in db
    ensures var db' := db[l := db[l].(perfil := db[l].perfil[atributo := valor])];
            R.Inv(db') && db'.Keys == db.Keys
  {
    var db' := db[l := db[l].(perfil := db[l].perfil[atributo := valor])];
    forall k | k in db
      ensures db'[k].login == db[k].login && db'[k].perfil.Keys >= db[k].perfil.Keys
      ensures db'[k].amigos == db[k].amigos && db'[k].convites == db[k].convites
      ensures db'[k].inimigos == db[k].inimigos && db'[k].idolos == db[k].idolos
      ensures db'[k].fas == db[k].fas && db'[k].paqueras == db[k].paqueras
    {
    }
    R.SoMensagensOuPerfil(db, db');
  }

  /** The handshake touches existing accounts only. */
  lemma AdicionarAmigoChaves(db: R.Contas, a: string, b: string)
    ensures R.AdicionarAmigo(db, a, b).depois.Keys == db.Keys
  {
  }

  lemma AdicionarAmigoPreservaInv(e: Estado, id: string, amigo: string)
    requires Inv(e)
    ensures Inv(AdicionarAmigo(e, id, amigo).depois)
  {
    if LoginDaSessao(e, id).Ok? {
      var a := e.contas[e.sessoes[id]].login;
      R.AdicionarAmigoPreservaInv(e.contas, a, amigo);
      AdicionarAmigoChaves(e.contas, a, amigo);
      MesmasChaves(e, R.AdicionarAmigo(e.contas, a, amigo).depois);
    }
  }

  lemma EnviarRecadoPreservaInv(e: Estado, id: string, destinatario: string, mensagem: string)
    requires Inv(e)
    ensures Inv(EnviarRecado(e, id, destinatario, mensagem).depois)
  {
    if LoginDaSessao(e, id).Ok? && destinatario in e.contas {
      var m := Recado(e.contas[e.sessoes[id]].login, mensagem);
      R.ComRecadoPreserva(e.contas, destinatario, m);
      MesmasChaves(e, e.contas[destinatario := e.contas[destinatario].ComRecado(m)]);
    }
  }

  lemma LerRecadoPreservaInv(e: Estado, id: string)
    requires Inv(e)
    ensures Inv(LerRecado(e, id).depois)
  {
    if LoginDaSessao(e, id).Ok? {
      var l := e.sessoes[id];
      var db' := e.contas[l := e.contas[l].LerRecado().depois];
      RecadoLido(e.contas, l);
      MesmasChaves(e, db');
    }
  }

  lemma RecadoLido(db: R.Contas, l: string)
    requires R.Inv(db) && l in db
    ensures var db' := db[l := db[l].LerRecado().depois];
            R.Inv(db') && db'.Keys == db.Keys
  {
    var db' := db[l := db[l].LerRecado().depois];
    forall k | k in db
      ensures db'[k].login == db[k].login && db'[k].perfil.Keys >= db[k].perfil.Keys
      ensures db'[k].amigos == db[k].amigos && db'[k].convites == db[k].convites
      ensures db'[k].inimigos == db[k].inimigos && db'[k].idolos == db[k].idolos
      ensures db'[k].fas == db[k].fas && db'[k].paqueras == db[k].paqueras
    {
    }
    R.SoMensagensOuPerfil(db, db');
  }
}
