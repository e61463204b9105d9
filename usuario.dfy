/** Usuario: one account record — login, password, profile, the friend set kept in
    insertion order, the invitation map, the private-message queue, and the enemy, idol,
    fan and crush sets. */
module Usuarios {
  import opened Erros
  import opened Colecoes
  import opened Recados
  import opened Perfis

  /** The status of a pending friend invitation, seen from the account that holds it. */
  datatype ConviteStatus = Enviado | Recebido

  /** temConvitePara: an invitation this account sent to `x` is pending. */
  predicate ConviteEnviado(convites: map<string, ConviteStatus>, x: string) {
    x in convites && convites[x] == Enviado
  }

  /** temConviteDe: an invitation this account received from `x` is pending. */
  predicate ConviteRecebido(convites: map<string, ConviteStatus>, x: string) {
    x in convites && convites[x] == Recebido
  }

  /** The map holds one status per login, so an invitation to `x` and one from `x` are
      never pending together, and a login without an entry has neither. */
  lemma ConvitesExclusivos(convites: map<string, ConviteStatus>, x: string)
    ensures !(ConviteEnviado(convites, x) && ConviteRecebido(convites, x))
    ensures x in convites <==> ConviteEnviado(convites, x) || ConviteRecebido(convites, x)
  {
  }

  /** The value of a Usuario: all its fields, with the Perfil object read as its map. */
  datatype Conta = Conta(
    login: string,
    senha: string,
    perfil: map<string, string>,
    amigos: seq<string>,
    convites: map<string, ConviteStatus>,
    recados: seq<Recado>,
    inimigos: set<string>,
    idolos: set<string>,
    fas: set<string>,
    paqueras: set<string>)
  {
    /** adicionarAmigo: set insertion into the insertion-ordered friend set. */
    function ComAmigo(x: string): Conta {
      this.(amigos := Insert(amigos, x))
    }

    /** adicionarConvite: records (or overwrites) the status under `x`. */
    function ComConvite(x: string, status: ConviteStatus): Conta {
      this.(convites := convites[x := status])
    }

    /** removerConvite: deletes the entry under `x`, if any. */
    function SemConvite(x: string): Conta {
      this.(convites := convites - {x})
    }

    /** adicionarRecado: the message joins the tail of the queue. */
    function ComRecado(r: Recado): Conta {
      this.(recados := recados + [r])
    }

    /** lerRecado: the text of the head message and the account without it, or
        SemRecados on an empty queue. */
    function LerRecado(): (r: Passo<string, Conta>)
      ensures recados == [] ==> r.saida == Err(SemRecados) && r.depois == this
      ensures recados != [] ==> r.saida == Ok(recados[0].ToString())
      ensures recados != [] ==> [recados[0]] + r.depois.recados == recados
      ensures r.depois == this.(recados := r.depois.recados)
    {
      if recados == [] then Passo(Err(SemRecados), this)
      else Passo(Ok(recados[0].ToString()), this.(recados := recados[1..]))
    }

    function ComInimigo(x: string): Conta {
      this.(inimigos := inimigos + {x})
    }

    function ComIdolo(x: string): Conta {
      this.(idolos := idolos + {x})
    }

    function ComFa(x: string): Conta {
      this.(fas := fas + {x})
    }

    function ComPaquera(x: string): Conta {
      this.(paqueras := paqueras + {x})
    }
  }

  /** The account the constructor builds. */
  function NovaConta(login: string, senha: string, nome: string): Conta {
    Conta(login, senha, map["nome" := nome], [], map[], [], {}, {}, {}, {})
  }

  /** The message queue is FIFO with a destructive read: on an empty queue, sending M1 and
      then M2 and reading three times yields M1's text, then M2's, then SemRecados, and
      the queue ends empty. */
  lemma FilaFifo(c: Conta, m1: Recado, m2: Recado)
    requires c.recados == []
    ensures var c1 := c.ComRecado(m1).ComRecado(m2).LerRecado();
            var c2 := c1.depois.LerRecado();
            var c3 := c2.depois.LerRecado();
            c1.saida == Ok(m1.mensagem) && c2.saida == Ok(m2.mensagem)
            && c3.saida == Err(SemRecados) && c3.depois == c
  {
    var c0 := c.ComRecado(m1).ComRecado(m2);
    assert c0.recados == [m1, m2];
    assert c0.LerRecado().depois.recados == [m2];
    assert c0.LerRecado().depois.LerRecado().depois.recados == [];
  }

  /** Friends are kept in the order they were added: two new friends follow the earlier
      ones in the order of the calls, and adding a friend again changes nothing. */
  lemma AmigosNaOrdemDeAdicao(c: Conta, x: string, y: string)
    requires x !in c.amigos && y !in c.amigos && x != y
    ensures c.ComAmigo(x).ComAmigo(y).amigos == c.amigos + [x, y]
    ensures c.ComAmigo(x).ComAmigo(x) == c.ComAmigo(x)
  {
    var a1 := c.ComAmigo(x).amigos;
    assert a1 == c.amigos + [x];
    assert c.ComAmigo(x).ComAmigo(y).amigos == a1 + [y];
    assert a1 + [y] == c.amigos + [x, y];
  }

  /** Reading a queue that is not empty and appending a message commute: a message that
      arrives later is read later. */
  lemma LerDepoisDeEnfileirar(c: Conta, m: Recado)
    requires c.recados != []
    ensures c.ComRecado(m).LerRecado().saida == c.LerRecado().saida
    ensures c.ComRecado(m).LerRecado().depois == c.LerRecado().depois.ComRecado(m)
  {
    assert (c.recados + [m])[1..] == c.recados[1..] + [m];
  }

  class Usuario {
    const login: string
    const senha: string
    const perfil: Perfil
    var amigos: seq<string>
    var convites: map<string, ConviteStatus>
    var recados: seq<Recado>
    var inimigos: set<string>
    var idolos: set<string>
    var fas: set<string>
    var paqueras: set<string>

    /** The friend list is a set: no login twice. */
    ghost predicate Valid()
      reads this
    {
      NoDup(amigos)
    }

    ghost function State(): Conta
      reads this, perfil
    {
      Conta(login, senha, perfil.atributos, amigos, convites, recados, inimigos, idolos, fas, paqueras)
    }

    /** The profile holds "nome"; friends, invitations, messages and relations start empty. */
    constructor (login: string, senha: string, nome: string)
      ensures Valid() && fresh(perfil)
      ensures State() == NovaConta(login, senha, nome)
    {
      this.login := login;
      this.senha := senha;
      var p := new Perfil();
      p.SetAtributo("nome", nome);
      this.perfil := p;
      amigos, convites, recados := [], map[], [];
      inimigos, idolos, fas, paqueras := {}, {}, {}, {};
    }

    method AdicionarAmigo(loginAmigo: string)
      requires Valid()
      modifies this
      ensures Valid() && State() == old(State()).ComAmigo(loginAmigo)
    {
      amigos := Insert(amigos, loginAmigo);
    }

    /** temConvitePara: the map holds ENVIADO for that login; then nothing was received from it. */
    predicate TemConvitePara(loginAmigo: string): (r: bool)
      reads this
      ensures r <==> loginAmigo in convites && convites[loginAmigo] == Enviado
      ensures r ==> !ConviteRecebido(convites, loginAmigo)
    {
      ConviteEnviado(convites, loginAmigo)
    }

    /** temConviteDe: the map holds RECEBIDO for that login; then nothing was sent to it. */
    predicate TemConviteDe(loginAmigo: string): (r: bool)
      reads this
      ensures r <==> loginAmigo in convites && convites[loginAmigo] == Recebido
      ensures r ==> !ConviteEnviado(convites, loginAmigo)
    {
      ConviteRecebido(convites, loginAmigo)
    }

    method AdicionarConvite(loginAmigo: string, status: ConviteStatus)
      requires Valid()
      modifies this
      ensures Valid() && State() == old(State()).ComConvite(loginAmigo, status)
    {
      convites := convites[loginAmigo := status];
    }

    method RemoverConvite(loginAmigo: string)
      requires Valid()
      modifies this
      ensures Valid() && State() == old(State()).SemConvite(loginAmigo)
    {
      convites := convites - {loginAmigo};
    }

    method AdicionarRecado(recado: Recado)
      requires Valid()
      modifies this
      ensures Valid() && State() == old(State()).ComRecado(recado)
    {
      recados := recados + [recado];
    }

    /** poll() on the queue: the head's text, or SemRecados with the queue left empty. */
    method LerRecado() returns (r: Result<string>)
      requires Valid()
      modifies this
      ensures Valid()
      ensures r == old(State()).LerRecado().saida && State() == old(State()).LerRecado().depois
    {
      if recados == [] {
        r := Err(SemRecados);
      } else {
        var recado := recados[0];
        recados := recados[1..];
        r := Ok(recado.ToString());
      }
    }

    /** The friends in the order they were added, each once. */
    function GetAmigosOrdenados(): (r: seq<string>)
      reads this, perfil
      requires Valid()
      ensures r == State().amigos
      ensures NoDup(r) && forall x :: x in r <==> x in amigos
    {
      amigos
    }

    method AdicionarInimigo(x: string)
      requires Valid()
      modifies this
      ensures Valid() && State() == old(State()).ComInimigo(x)
    {
      inimigos := inimigos + {x};
    }

    method AdicionarIdolo(x: string)
      requires Valid()
      modifies this
      ensures Valid() && State() == old(State()).ComIdolo(x)
    {
      idolos := idolos + {x};
    }

    method AdicionarFa(x: string)
      requires Valid()
      modifies this
      ensures Valid() && State() == old(State()).ComFa(x)
    {
      fas := fas + {x};
    }

    method AdicionarPaquera(x: string)
      requires Valid()
      modifies this
      ensures Valid() && State() == old(State()).ComPaquera(x)
    {
      paqueras := paqueras + {x};
    }
  }
}
