/** Properties of the Jackute rules: the order of the checks, the session round trip, what
    editing a profile and sending a message change, and the divergence between the two
    message paths. */
module PropriedadesJackute {
  import opened Erros
  import opened Colecoes
  import opened Recados
  import opened Perfis
  import opened Usuarios
  import R = RegrasUsuarios
  import S = Sessoes
  import opened RegrasJackute

  /** criarUsuario checks the login, then the password, then uniqueness; a successful
      creation adds exactly the new account and leaves the sessions alone. */
  lemma CriarUsuarioOrdem(e: Estado, login: string, senha: string, nome: string)
    ensures IsBlank(login) ==> CriarUsuario(e, login, senha, nome) == Passo(Err(LoginInvalido), e)
    ensures !IsBlank(login) && IsBlank(senha) ==> CriarUsuario(e, login, senha, nome) == Passo(Err(SenhaInvalida), e)
    ensures !IsBlank(login) && !IsBlank(senha) && login in e.contas ==>
              CriarUsuario(e, login, senha, nome) == Passo(Err(UsuarioJaExiste), e)
    ensures !IsBlank(login) && !IsBlank(senha) && login !in e.contas ==>
              CriarUsuario(e, login, senha, nome)
                == Passo(Ok(()), Estado(e.contas[login := NovaConta(login, senha, nome)], e.sessoes))
  {
  }

  /** A new account answers its "nome" attribute, and no other attribute is filled. */
  lemma CriarEntaoAtributo(e: Estado, login: string, senha: string, nome: string, atributo: string)
    requires !IsBlank(login) && !IsBlank(senha) && login !in e.contas
    ensures var e' := CriarUsuario(e, login, senha, nome).depois;
            && GetAtributoUsuario(e', login, "nome") == Ok(nome)
            && (atributo != "nome" ==> GetAtributoUsuario(e', login, atributo) == Err(AtributoNaoPreenchido))
  {
  }

  /** An unknown login and a wrong password fail alike, and open no session. */
  lemma AbrirSessaoRecusa(e: Estado, login: string, senha: string, id: string)
    requires login !in e.contas || e.contas[login].senha != senha
    ensures AbrirSessao(e, login, senha, id) == Passo(Err(LoginOuSenhaInvalidos), e)
  {
  }

  /** Under the invariant, the right password always opens a session (the session table's
      blank-login refusal cannot be reached), and the new token resolves to the login. */
  lemma AbrirSessaoEntaoSessao(e: Estado, login: string, senha: string, id: string, outro: string)
    requires Inv(e) && login in e.contas && e.contas[login].senha == senha
    ensures var p := AbrirSessao(e, login, senha, id);
            && p.saida == Ok(id)
            && p.depois.contas == e.contas
            && LoginDaSessao(p.depois, id) == Ok(login)
            && (outro != id ==> LoginDaSessao(p.depois, outro) == LoginDaSessao(e, outro))
  {
    S.CriarEntaoConsultar(e.sessoes, login, id, outro);
  }

  /** A token with no session fails every session operation with UsuarioNaoEncontrado and
      changes nothing. */
  lemma SessaoDesconhecida(e: Estado, id: string, atributo: string, valor: string, x: string, mensagem: string)
    requires id !in e.sessoes
    ensures EditarPerfil(e, id, atributo, valor) == Passo(Err(UsuarioNaoEncontrado), e)
    ensures AdicionarAmigo(e, id, x) == Passo(Err(UsuarioNaoEncontrado), e)
    ensures EnviarRecado(e, id, x, mensagem) == Passo(Err(UsuarioNaoEncontrado), e)
    ensures LerRecado(e, id) == Passo(Err(UsuarioNaoEncontrado), e)
  {
  }

  /** editarPerfil sets exactly one attribute of the session's user: that attribute reads
      back as the new value, every other attribute and account is untouched, and the
      sessions stay as they were. */
  lemma EditarPerfilEfeito(e: Estado, id: string, atributo: string, valor: string, outroAtributo: string, outroLogin: string)
    requires id in e.sessoes && e.sessoes[id] in e.contas
    ensures var l := e.sessoes[id];
            var p := EditarPerfil(e, id, atributo, valor);
            && p.saida == Ok(())
            && p.depois.sessoes == e.sessoes
            && GetAtributoUsuario(p.depois, l, atributo) == Ok(valor)
            && (outroAtributo != atributo ==>
                  GetAtributoUsuario(p.depois, l, outroAtributo) == GetAtributoUsuario(e, l, outroAtributo))
            && (outroLogin != l ==>
                  GetAtributoUsuario(p.depois, outroLogin, outroAtributo) == GetAtributoUsuario(e, outroLogin, outroAtributo))
            && p.depois.contas[l] == e.contas[l].(perfil := p.depois.contas[l].perfil)
  {
    var l := e.sessoes[id];
    SetEntaoGet(e.contas[l].perfil, atributo, valor, outroAtributo);
  }

  /** adicionarAmigo acts as the store's handshake for the session's user. */
  lemma AdicionarAmigoSessao(e: Estado, id: string, amigo: string)
    requires Inv(e) && id in e.sessoes
    ensures var l := e.sessoes[id];
            var p := AdicionarAmigo(e, id, amigo);
            && p.saida == R.AdicionarAmigo(e.contas, l, amigo).saida
            && p.depois == Estado(R.AdicionarAmigo(e.contas, l, amigo).depois, e.sessoes)
  {
  }

  /** enviarRecado checks the session, then that the recipient exists, then self-sending;
      on success only the recipient's queue changes, by one message at its tail. */
  lemma EnviarRecadoOrdem(e: Estado, id: string, destinatario: string, mensagem: string)
    requires Inv(e) && id in e.sessoes
    ensures var l := e.sessoes[id];
            var p := EnviarRecado(e, id, destinatario, mensagem);
            && (destinatario !in e.contas ==> p == Passo(Err(UsuarioNaoEncontrado), e))
            && (destinatario in e.contas && destinatario == l ==>
                  p == Passo(Err(AutoMensagem(MsgAutoMensagem)), e))
            && (destinatario in e.contas && destinatario != l ==>
                  && p.saida == Ok(())
                  && p.depois.sessoes == e.sessoes
                  && p.depois.contas == e.contas[destinatario := e.contas[destinatario].ComRecado(Recado(l, mensagem))])
  {
  }

  /** As written, this path does not consult enmity: a user the recipient declared an
      enemy still gets the message through, while the store's own enviarRecado, asked
      about the same pair, refuses it. */
  lemma EnviarRecadoIgnoraInimizade(e: Estado, id: string, destinatario: string, mensagem: string)
    requires Inv(e) && id in e.sessoes && destinatario in e.contas
    requires e.sessoes[id] in e.contas[destinatario].inimigos
    ensures EnviarRecado(e, id, destinatario, mensagem).saida == Ok(())
    ensures R.EnviarRecado(e.contas, e.sessoes[id], destinatario, mensagem).saida.Err?
  {
    var l := e.sessoes[id];
    assert destinatario in e.contas[l].inimigos;
  }

  /** A message sent to a user with an empty queue is the next one it reads, and reading it
      leaves that queue empty again. */
  lemma EnviarEntaoLer(e: Estado, idA: string, idB: string, mensagem: string)
    requires Inv(e) && idA in e.sessoes && idB in e.sessoes
    requires e.sessoes[idA] != e.sessoes[idB] && e.contas[e.sessoes[idB]].recados == []
    ensures var e1 := EnviarRecado(e, idA, e.sessoes[idB], mensagem);
            var e2 := LerRecado(e1.depois, idB);
            && e1.saida == Ok(())
            && e2.saida == Ok(mensagem)
            && e2.depois == e
  {
    var a, b := e.sessoes[idA], e.sessoes[idB];
    var e1 := EnviarRecado(e, idA, b, mensagem).depois;
    assert e1.contas[b].recados == [Recado(a, mensagem)];
    assert e1.contas[b].LerRecado().depois == e.contas[b];
    assert e1.contas[b := e.contas[b]] == e.contas;
  }

  /** An empty queue reads as SemRecados and nothing changes; otherwise the head's text is
      returned and only the reader's queue loses its head. */
  lemma LerRecadoEfeito(e: Estado, id: string)
    requires Inv(e) && id in e.sessoes
    ensures var l := e.sessoes[id];
            var p := LerRecado(e, id);
            && (e.contas[l].recados == [] ==> p == Passo(Err(SemRecados), e))
            && (e.contas[l].recados != [] ==>
                  && p.saida == Ok(e.contas[l].recados[0].mensagem)
                  && p.depois.sessoes == e.sessoes
                  && p.depois.contas == e.contas[l := e.contas[l].(recados := e.contas[l].recados[1..])])
  {
    var l := e.sessoes[id];
    if e.contas[l].recados == [] {
      assert e.contas[l := e.contas[l]] == e.contas;
    }
  }

  /** After zerar every session operation fails with UsuarioNaoEncontrado and no login can
      open a session. */
  lemma ZerarEsvazia(id: string, login: string, senha: string, atributo: string)
    ensures LerRecado(Zerar(), id) == Passo(Err(UsuarioNaoEncontrado), Zerar())
    ensures EditarPerfil(Zerar(), id, atributo, senha) == Passo(Err(UsuarioNaoEncontrado), Zerar())
    ensures AbrirSessao(Zerar(), login, senha, id) == Passo(Err(LoginOuSenhaInvalidos), Zerar())
    ensures GetAtributoUsuario(Zerar(), login, atributo) == Err(UsuarioNaoEncontrado)
  {
  }
}
