/** GerenciadorSessoes: the table from session token to login. The token the source draws
    from UUID.randomUUID() is a parameter here. */
module Sessoes {
  import opened Erros
  import opened Colecoes

  /** A login, or nothing where the source returns null. */
  datatype Option<+T> = None | Some(value: T)

  type Tabela = map<string, string>

  /** criarSessao on values: a blank login is refused, otherwise the token is stored
      (a `put`, so a colliding token is overwritten) and returned. */
  function Criar(t: Tabela, login: string, id: string): Passo<string, Tabela> {
    if IsBlank(login) then Passo(Err(LoginInvalidoParaSessao), t)
    else Passo(Ok(id), t[id := login])
  }

  /** getLogin on values. */
  function Consultar(t: Tabela, id: string): Option<string> {
    if id in t then Some(t[id]) else None
  }

  /** removerSessoesDoUsuario on values: the entries whose login is `login` are dropped. */
  function SemUsuario(t: Tabela, login: string): (r: Tabela)
    ensures forall id :: id in r <==> id in t && t[id] != login
    ensures forall id :: id in r ==> r[id] == t[id]
  {
    map id | id in t && t[id] != login :: t[id]
  }

  /** A blank login creates no session and leaves the table as it was. */
  lemma CriarRecusaLoginEmBranco(t: Tabela, login: string, id: string)
    requires IsBlank(login)
    ensures Criar(t, login, id).saida == Err(LoginInvalidoParaSessao)
    ensures Criar(t, login, id).depois == t
  {
  }

  /** A session just created resolves to its login; every other token resolves as before,
      and a fresh token keeps every earlier session. */
  lemma CriarEntaoConsultar(t: Tabela, login: string, id: string, outro: string)
    requires !IsBlank(login)
    ensures Criar(t, login, id).saida == Ok(id)
    ensures Consultar(Criar(t, login, id).depois, id) == Some(login)
    ensures outro != id ==> Consultar(Criar(t, login, id).depois, outro) == Consultar(t, outro)
    ensures id !in t ==> t.Keys < Criar(t, login, id).depois.Keys
  {
  }

  /** An unknown token resolves to nothing. */
  lemma ConsultarDesconhecido(t: Tabela, id: string)
    requires id !in t
    ensures Consultar(t, id) == None
  {
  }

  /** After removal no session resolves to the login, every other session resolves as
      before, and removing again changes nothing. */
  lemma SemUsuarioRemoveSoAsDele(t: Tabela, login: string, id: string)
    ensures Consultar(SemUsuario(t, login), id) != Some(login)
    ensures Consultar(t, id) != Some(login) ==> Consultar(SemUsuario(t, login), id) == Consultar(t, id)
    ensures SemUsuario(SemUsuario(t, login), login) == SemUsuario(t, login)
  {
  }

  class GerenciadorSessoes {
    var sessoes: Tabela

    constructor ()
      ensures sessoes == map[]
    {
      sessoes := map[];
    }

    /** `id` stands for the UUID the source generates. */
    method CriarSessao(login: string, id: string) returns (r: Result<string>)
      modifies this
      ensures r == Criar(old(sessoes), login, id).saida
      ensures sessoes == Criar(old(sessoes), login, id).depois
    {
      if IsBlank(login) {
        return Err(LoginInvalidoParaSessao);
      }
      sessoes := sessoes[id := login];
      r := Ok(id);
    }

    function GetLogin(idSessao: string): (r: Option<string>)
      reads this
      ensures r.Some? <==> idSessao in sessoes
      ensures r.Some? ==> r.value == sessoes[idSessao]
    {
      Consultar(sessoes, idSessao)
    }

    method Zerar()
      modifies this
      ensures sessoes == map[]
    {
      sessoes := map[];
    }

    method RemoverSessoesDoUsuario(login: string)
      modifies this
      ensures sessoes == SemUsuario(old(sessoes), login)
    {
      sessoes := SemUsuario(sessoes, login);
    }
  }
}
