/** The rules of GerenciadorUsuarios, stated on values: the user store is a map from
    login to account value, and every operation is a function from the store before to
    the outcome it reports and the store after. The class GerenciadorUsuarios is proved
    to follow these functions; the invariants and the properties of the relationship
    engine are proved here. */
module RegrasUsuarios {
  import opened Erros
  import opened Colecoes
  import opened Recados
  import opened Perfis
  import opened Usuarios

  type Contas = map<string, Conta>

  const MsgJaAmigo := "Usuário já está adicionado como amigo."
  const MsgAguardandoAceitacao := "Usuário já está adicionado como amigo, esperando aceitação do convite."
  const MsgFaDeSi := "Usuário não pode ser fã de si mesmo."
  const MsgPaqueraDeSi := "Usuário não pode ser paquera de si mesmo."
  const MsgInimigoDeSi := "Usuário não pode ser inimigo de si mesmo."
  const MsgJaInimigo := "Usuário já está adicionado como inimigo."
  const RemetenteSistema := "Sistema"
  const SufixoPaquera := " é seu paquera - Recado do Jackut."

  function Falha(db: Contas, e: Erro): Passo<(), Contas> {
    Passo(Err(e), db)
  }

  function Sucesso(db: Contas): Passo<(), Contas> {
    Passo(Ok(()), db)
  }

  // ---------------------------------------------------------------------------
  // Lookups

  /** getUsuario: the account, or UsuarioNaoEncontrado. */
  function GetUsuario(db: Contas, login: string): (r: Result<Conta>)
    ensures r.Ok? <==> login in db
    ensures r.Ok? ==> r.value == db[login]
    ensures r.Err? ==> r.erro == UsuarioNaoEncontrado
  {
    if login in db then Ok(db[login]) else Err(UsuarioNaoEncontrado)
  }

  /** getPerfil().getAtributo("nome"). */
  function Nome(c: Conta): Result<string> {
    Atributo(c.perfil, "nome")
  }

  /** new InimigoException(nome of `c`): fetching the name may itself throw first. */
  function ErroInimigo(c: Conta): (e: Erro)
    ensures "nome" in c.perfil ==> e == Inimigo(c.perfil["nome"])
    ensures "nome" !in c.perfil ==> e == AtributoNaoPreenchido
  {
    match Nome(c)
    case Ok(n) => Inimigo(n)
    case Err(e) => e
  }

  // ---------------------------------------------------------------------------
  // Operations

  /** criarUsuario: a login already in use fails with UsuarioJaExiste. */
  function CriarUsuario(db: Contas, login: string, senha: string, nome: string): Passo<(), Contas> {
    if login in db then Falha(db, UsuarioJaExiste)
    else Sucesso(db[login := NovaConta(login, senha, nome)])
  }

  /** adicionarAmigo: the invitation handshake. */
  function AdicionarAmigo(db: Contas, a: string, b: string): Passo<(), Contas> {
    if a !in db || b !in db then Falha(db, UsuarioNaoEncontrado)
    else
      var usuario, amigo := db[a], db[b];
      if b in usuario.inimigos then Falha(db, ErroInimigo(amigo))
      else if a == b then Falha(db, AutoAmizade)
      else if b in usuario.amigos then Falha(db, AmigoJaAdicionado(MsgJaAmigo))
      else if ConviteEnviado(usuario.convites, b) then Falha(db, AmigoJaAdicionado(MsgAguardandoAceitacao))
      else if ConviteRecebido(usuario.convites, b) then
        Sucesso(db[a := usuario.ComAmigo(b).SemConvite(b)][b := amigo.ComAmigo(a).SemConvite(a)])
      else
        Sucesso(db[a := usuario.ComConvite(b, Enviado)][b := amigo.ComConvite(a, Recebido)])
  }

  /** saoAmigos: both memberships, checked on both accounts. */
  function SaoAmigos(db: Contas, a: string, b: string): Result<bool> {
    if a !in db || b !in db then Err(UsuarioNaoEncontrado)
    else Ok(b in db[a].amigos && a in db[b].amigos)
  }

  /** listarAmigos: "{f1,f2,...}" in insertion order. */
  function ListarAmigos(db: Contas, login: string): (r: Result<string>)
    ensures r.Ok? <==> login in db
    ensures r.Ok? ==> r.value == Braced(db[login].amigos)
  {
    if login !in db then Err(UsuarioNaoEncontrado) else Ok(Braced(db[login].amigos))
  }

  /** adicionarIdolo: self fails before any lookup; an enemy idol is refused. */
  function AdicionarIdolo(db: Contas, fa: string, idolo: string): Passo<(), Contas> {
    if fa == idolo then Falha(db, AutoRelacao(MsgFaDeSi))
    else if fa !in db || idolo !in db then Falha(db, UsuarioNaoEncontrado)
    else if idolo in db[fa].inimigos then Falha(db, ErroInimigo(db[idolo]))
    else Sucesso(db[fa := db[fa].ComIdolo(idolo)][idolo := db[idolo].ComFa(fa)])
  }

  /** adicionarPaquera: the crush is recorded on the caller only; when it is reciprocal the
      system message of each side is sent, which may still throw. */
  function AdicionarPaquera(db: Contas, usuario: string, paquera: string): Passo<(), Contas> {
    if usuario == paquera then Falha(db, AutoRelacao(MsgPaqueraDeSi))
    else if usuario !in db || paquera !in db then Falha(db, UsuarioNaoEncontrado)
    else if paquera in db[usuario].inimigos then Falha(db, ErroInimigo(db[paquera]))
    else
      var db1 := db[usuario := db[usuario].ComPaquera(paquera)];
      if usuario in db[paquera].paqueras then EnviarRecadoSistema(db1, usuario, paquera)
      else Sucesso(db1)
  }

  /** The system message announcing a crush: "<the other's nome> é seu paquera ...". */
  function RecadoPaquera(nomeOutro: string): Recado {
    Recado(RemetenteSistema, nomeOutro + SufixoPaquera)
  }

  /** enviarRecadoSistema: re-checks enmity on both sides, then delivers one message to each. */
  function EnviarRecadoSistema(db: Contas, u1: string, u2: string): Passo<(), Contas> {
    if u1 !in db || u2 !in db then Falha(db, UsuarioNaoEncontrado)
    else if u2 in db[u1].inimigos || u1 in db[u2].inimigos then Falha(db, ErroInimigo(db[u2]))
    else match (Nome(db[u1]), Nome(db[u2]))
      case (Err(e), _) => Falha(db, e)
      case (_, Err(e)) => Falha(db, e)
      case (Ok(nome1), Ok(nome2)) =>
        var db2 := db[u1 := db[u1].ComRecado(RecadoPaquera(nome2))];
        Sucesso(db2[u2 := db2[u2].ComRecado(RecadoPaquera(nome1))])
  }

  /** adicionarInimigo: self fails before any lookup; the relation is recorded on both sides. */
  function AdicionarInimigo(db: Contas, usuario: string, inimigo: string): Passo<(), Contas> {
    if usuario == inimigo then Falha(db, AutoRelacao(MsgInimigoDeSi))
    else if usuario !in db || inimigo !in db then Falha(db, UsuarioNaoEncontrado)
    else if inimigo in db[usuario].inimigos then Falha(db, RelacaoExistente(MsgJaInimigo))
    else Sucesso(db[usuario := db[usuario].ComInimigo(inimigo)][inimigo := db[inimigo].ComInimigo(usuario)])
  }

  /** ehFa: only the fan's account is looked up. */
  function EhFa(db: Contas, fa: string, idolo: string): (r: Result<bool>)
    ensures r.Ok? <==> fa in db
    ensures r.Ok? ==> (r.value <==> idolo in db[fa].idolos)
  {
    if fa !in db then Err(UsuarioNaoEncontrado) else Ok(idolo in db[fa].idolos)
  }

  /** getFas: the fans, each once, in the set's unspecified enumeration order. */
  ghost function GetFas(db: Contas, idolo: string): (r: Result<string>)
    ensures r.Ok? <==> idolo in db
    ensures r.Ok? ==> exists lista :: NoDup(lista) && (forall x :: x in lista <==> x in db[idolo].fas)
                                 && r.value == Braced(lista)
  {
    if idolo !in db then Err(UsuarioNaoEncontrado)
    else
      var lista := Enumeracao(db[idolo].fas);
      Ok(Braced(lista))
  }

  /** ehPaquera. */
  function EhPaquera(db: Contas, usuario: string, paquera: string): (r: Result<bool>)
    ensures r.Ok? <==> usuario in db
    ensures r.Ok? ==> (r.value <==> paquera in db[usuario].paqueras)
  {
    if usuario !in db then Err(UsuarioNaoEncontrado) else Ok(paquera in db[usuario].paqueras)
  }

  /** getPaqueras: the crushes, each once, in the set's unspecified enumeration order. */
  ghost function GetPaqueras(db: Contas, usuario: string): (r: Result<string>)
    ensures r.Ok? <==> usuario in db
    ensures r.Ok? ==> exists lista :: NoDup(lista) && (forall x :: x in lista <==> x in db[usuario].paqueras)
                                 && r.value == Braced(lista)
  {
    if usuario !in db then Err(UsuarioNaoEncontrado)
    else
      var lista := Enumeracao(db[usuario].paqueras);
      Ok(Braced(lista))
  }

  /** enviarRecado of this layer: an enemy recipient is refused; sending to oneself is not. */
  function EnviarRecado(db: Contas, remetente: string, destinatario: string, mensagem: string): Passo<(), Contas> {
    if remetente !in db || destinatario !in db then Falha(db, UsuarioNaoEncontrado)
    else if destinatario in db[remetente].inimigos then Falha(db, ErroInimigo(db[destinatario]))
    else Sucesso(db[destinatario := db[destinatario].ComRecado(Recado(db[remetente].login, mensagem))])
  }

  // ---------------------------------------------------------------------------
  // The invariant every operation keeps

  /** Every account is stored under its own login. */
  ghost predicate ChavesCorretas(db: Contas) {
    forall l :: l in db ==> db[l].login == l
  }

  /** Every profile holds "nome" (set at construction, never removed). */
  ghost predicate NomesDefinidos(db: Contas) {
    forall l :: l in db ==> "nome" in db[l].perfil
  }

  /** No account relates to itself, and friend lists have no repetition. */
  ghost predicate SemAutoRelacao(db: Contas) {
    forall l :: l in db ==>
      && NoDup(db[l].amigos)
      && l !in db[l].amigos && l !in db[l].convites && l !in db[l].inimigos
      && l !in db[l].idolos && l !in db[l].fas && l !in db[l].paqueras
  }

  /** A lists B as friend iff B lists A. */
  ghost predicate AmizadeSimetrica(db: Contas) {
    forall a, b :: a in db && b in db[a].amigos ==> b in db && a in db[b].amigos
  }

  /** Enmity is recorded on both sides. */
  ghost predicate InimizadeSimetrica(db: Contas) {
    forall a, b :: a in db && b in db[a].inimigos ==> b in db && a in db[b].inimigos
  }

  /** A has B as idol iff B has A as fan. */
  ghost predicate FasEIdolos(db: Contas) {
    && (forall a, b :: a in db && b in db[a].idolos ==> b in db && a in db[b].fas)
    && (forall a, b :: a in db && b in db[a].fas ==> b in db && a in db[b].idolos)
  }

  /** Every crush names an existing account. */
  ghost predicate PaquerasExistem(db: Contas) {
    forall a, b :: a in db && b in db[a].paqueras ==> b in db
  }

  function Oposto(s: ConviteStatus): ConviteStatus {
    if s == Enviado then Recebido else Enviado
  }

  /** A pending invitation is two opposite entries, one on each side, between two
      accounts that are not friends. */
  ghost predicate ConvitesPareados(db: Contas) {
    forall a, b :: a in db && b in db[a].convites ==>
      && b in db && a in db[b].convites
      && db[b].convites[a] == Oposto(db[a].convites[b])
      && b !in db[a].amigos
  }

  ghost predicate Inv(db: Contas) {
    && ChavesCorretas(db) && NomesDefinidos(db) && SemAutoRelacao(db)
    && AmizadeSimetrica(db) && InimizadeSimetrica(db) && FasEIdolos(db)
    && PaquerasExistem(db) && ConvitesPareados(db)
  }

  /** The empty store (the source's initial state and what zerar leaves). */
  lemma InvVazio()
    ensures Inv(map[])
  {
  }

  // ---------------------------------------------------------------------------
  // Frame lemmas: a part of the invariant survives every change that leaves the fields
  // it reads alone.

  lemma ChavesMoldura(db: Contas, db': Contas)
    requires ChavesCorretas(db) && db'.Keys == db.Keys
    requires forall l :: l in db ==> db'[l].login == db[l].login
    ensures ChavesCorretas(db')
  {
  }

  lemma NomesMoldura(db: Contas, db': Contas)
    requires NomesDefinidos(db) && db'.Keys == db.Keys
    requires forall l :: l in db ==> db'[l].perfil.Keys >= db[l].perfil.Keys
    ensures NomesDefinidos(db')
  {
  }

  lemma SemAutoRelacaoMoldura(db: Contas, db': Contas)
    requires SemAutoRelacao(db) && db'.Keys == db.Keys
    requires forall l :: l in db ==>
      && db'[l].amigos == db[l].amigos && db'[l].convites == db[l].convites
      && db'[l].inimigos == db[l].inimigos && db'[l].idolos == db[l].idolos
      && db'[l].fas == db[l].fas && db'[l].paqueras == db[l].paqueras
    ensures SemAutoRelacao(db')
  {
  }

  lemma AmizadeMoldura(db: Contas, db': Contas)
    requires AmizadeSimetrica(db) && db'.Keys == db.Keys
    requires forall l :: l in db ==> db'[l].amigos == db[l].amigos
    ensures AmizadeSimetrica(db')
  {
  }

  lemma InimizadeMoldura(db: Contas, db': Contas)
    requires InimizadeSimetrica(db) && db'.Keys == db.Keys
    requires forall l :: l in db ==> db'[l].inimigos == db[l].inimigos
    ensures InimizadeSimetrica(db')
  {
  }

  lemma FasEIdolosMoldura(db: Contas, db': Contas)
    requires FasEIdolos(db) && db'.Keys == db.Keys
    requires forall l :: l in db ==> db'[l].idolos == db[l].idolos && db'[l].fas == db[l].fas
    ensures FasEIdolos(db')
  {
  }

  lemma PaquerasMoldura(db: Contas, db': Contas)
    requires PaquerasExistem(db) && db'.Keys == db.Keys
    requires forall l :: l in db ==> db'[l].paqueras == db[l].paqueras
    ensures PaquerasExistem(db')
  {
  }

  lemma ConvitesMoldura(db: Contas, db': Contas)
    requires ConvitesPareados(db) && db'.Keys == db.Keys
    requires forall l :: l in db ==> db'[l].convites == db[l].convites && db'[l].amigos == db[l].amigos
    ensures ConvitesPareados(db')
  {
    forall a, b | a in db' && b in db'[a].convites
      ensures b in db' && a in db'[b].convites && db'[b].convites[a] == Oposto(db'[a].convites[b])
      ensures b !in db'[a].amigos
    {
      assert b in db[a].convites;
    }
  }

  /** Operations that only touch messages or profile values (keeping "nome") keep the
      whole invariant. */
  lemma SoMensagensOuPerfil(db: Contas, db': Contas)
    requires Inv(db) && db'.Keys == db.Keys
    requires forall l :: l in db ==>
      && db'[l].login == db[l].login && db'[l].perfil.Keys >= db[l].perfil.Keys
      && db'[l].amigos == db[l].amigos && db'[l].convites == db[l].convites
      && db'[l].inimigos == db[l].inimigos && db'[l].idolos == db[l].idolos
      && db'[l].fas == db[l].fas && db'[l].paqueras == db[l].paqueras
    ensures Inv(db')
  {
    ChavesMoldura(db, db');
    NomesMoldura(db, db');
    SemAutoRelacaoMoldura(db, db');
    AmizadeMoldura(db, db');
    InimizadeMoldura(db, db');
    FasEIdolosMoldura(db, db');
    PaquerasMoldura(db, db');
    ConvitesMoldura(db, db');
  }

  // ---------------------------------------------------------------------------
  // Preservation, operation by operation

  lemma CriarUsuarioPreservaInv(db: Contas, login: string, senha: string, nome: string)
    requires Inv(db)
    ensures Inv(CriarUsuario(db, login, senha, nome).depois)
  {
    if login !in db {
      var c := NovaConta(login, senha, nome);
      NovaContaLocal(db, c);
      NovaContaRelacoes(db, c);
    }
  }

  /** A new account, stored under its login, with "nome" and no relations. */
  ghost predicate ContaNova(db: Contas, c: Conta) {
    && c.login !in db && "nome" in c.perfil
    && c.amigos == [] && c.convites == map[] && c.inimigos == {}
    && c.idolos == {} && c.fas == {} && c.paqueras == {}
  }

  lemma NovaContaLocal(db: Contas, c: Conta)
    requires ChavesCorretas(db) && NomesDefinidos(db) && SemAutoRelacao(db) && ContaNova(db, c)
    ensures var db' := db[c.login := c];
            ChavesCorretas(db') && NomesDefinidos(db') && SemAutoRelacao(db')
  {
  }

  lemma NovaContaRelacoes(db: Contas, c: Conta)
    requires AmizadeSimetrica(db) && InimizadeSimetrica(db) && FasEIdolos(db)
    requires PaquerasExistem(db) && ConvitesPareados(db) && ContaNova(db, c)
    ensures var db' := db[c.login := c];
            AmizadeSimetrica(db') && InimizadeSimetrica(db') && FasEIdolos(db')
            && PaquerasExistem(db') && ConvitesPareados(db')
  {
    NovaContaConvites(db, c);
    NovaContaAmizade(db, c);
  }

  lemma NovaContaAmizade(db: Contas, c: Conta)
    requires AmizadeSimetrica(db) && ContaNova(db, c)
    ensures AmizadeSimetrica(db[c.login := c])
  {
    var db' := db[c.login := c];
    forall a, b | a in db' && b in db'[a].amigos ensures b in db' && a in db'[b].amigos {
      assert a != c.login && b in db[a].amigos;
    }
  }

  lemma NovaContaConvites(db: Contas, c: Conta)
    requires ConvitesPareados(db) && ContaNova(db, c)
    ensures ConvitesPareados(db[c.login := c])
  {
    var db' := db[c.login := c];
    forall a, b | a in db' && b in db'[a].convites
      ensures b in db' && a in db'[b].convites && db'[b].convites[a] == Oposto(db'[a].convites[b])
      ensures b !in db'[a].amigos
    {
      assert a != c.login && b in db[a].convites;
    }
  }

  lemma AdicionarAmigoPreservaInv(db: Contas, a: string, b: string)
    requires Inv(db)
    ensures Inv(AdicionarAmigo(db, a, b).depois)
  {
    if && a in db && b in db && b !in db[a].inimigos && a != b && b !in db[a].amigos
       && !ConviteEnviado(db[a].convites, b)
    {
      if ConviteRecebido(db[a].convites, b) {
        AceitarConvitePreserva(db, a, b);
      } else {
        NovoConvitePreserva(db, a, b);
      }
    }
  }

  /** Only the friend lists and the invitation maps of `a` and `b` differ. */
  ghost predicate SoAmizadeMuda(db: Contas, db': Contas) {
    && db'.Keys == db.Keys
    && forall l :: l in db ==>
      && db'[l].login == db[l].login && db'[l].perfil == db[l].perfil
      && db'[l].inimigos == db[l].inimigos && db'[l].paqueras == db[l].paqueras
      && db'[l].idolos == db[l].idolos && db'[l].fas == db[l].fas
  }

  /** Replacing two accounts by versions that differ in friends and invitations only. */
  lemma SoAmizadeMudaDuas(db: Contas, a: string, b: string, ca: Conta, cb: Conta)
    requires a in db && b in db
    requires ca == db[a].(amigos := ca.amigos, convites := ca.convites)
    requires cb == db[b].(amigos := cb.amigos, convites := cb.convites)
    ensures SoAmizadeMuda(db, db[a := ca][b := cb])
  {
  }

  lemma SoAmizadeMudaPreserva(db: Contas, db': Contas)
    requires Inv(db) && SoAmizadeMuda(db, db')
    requires SemAutoRelacao(db') && AmizadeSimetrica(db') && ConvitesPareados(db')
    ensures Inv(db')
  {
    ChavesMoldura(db, db');
    NomesMoldura(db, db');
    InimizadeMoldura(db, db');
    FasEIdolosMoldura(db, db');
    PaquerasMoldura(db, db');
  }

  /** The accepting branch of the handshake keeps friendship symmetric and the
      invitations paired. */
  lemma AceitarConvitePreserva(db: Contas, a: string, b: string)
    requires Inv(db)
    requires a in db && b in db && a != b && b !in db[a].amigos && ConviteRecebido(db[a].convites, b)
    ensures Inv(db[a := db[a].ComAmigo(b).SemConvite(b)][b := db[b].ComAmigo(a).SemConvite(a)])
  {
    var db' := db[a := db[a].ComAmigo(b).SemConvite(b)][b := db[b].ComAmigo(a).SemConvite(a)];
    AceitarConviteRelacoes(db, a, b);
    SoAmizadeMudaDuas(db, a, b, db[a].ComAmigo(b).SemConvite(b), db[b].ComAmigo(a).SemConvite(a));
    SoAmizadeMudaPreserva(db, db');
  }

  lemma AceitarConviteRelacoes(db: Contas, a: string, b: string)
    requires SemAutoRelacao(db) && AmizadeSimetrica(db) && ConvitesPareados(db)
    requires a in db && b in db && a != b && b !in db[a].amigos && ConviteRecebido(db[a].convites, b)
    ensures var db' := db[a := db[a].ComAmigo(b).SemConvite(b)][b := db[b].ComAmigo(a).SemConvite(a)];
            SemAutoRelacao(db') && AmizadeSimetrica(db') && ConvitesPareados(db')
  {
    var db' := db[a := db[a].ComAmigo(b).SemConvite(b)][b := db[b].ComAmigo(a).SemConvite(a)];
    assert a !in db[b].amigos;
    assert db'[a].amigos == db[a].amigos + [b];
    assert db'[b].amigos == db[b].amigos + [a];
    forall x, y | x in db' && y in db'[x].amigos ensures y in db' && x in db'[y].amigos {
      if x != a && x != b {
        assert y in db[x].amigos;
      } else if y != a && y != b {
        assert y in db[x].amigos;
      }
    }
    forall x, y | x in db' && y in db'[x].convites
      ensures y in db' && x in db'[y].convites && db'[y].convites[x] == Oposto(db'[x].convites[y])
      ensures y !in db'[x].amigos
    {
      assert y in db[x].convites;
    }
  }

  /** The inviting branch of the handshake records a paired invitation. */
  lemma NovoConvitePreserva(db: Contas, a: string, b: string)
    requires Inv(db)
    requires a in db && b in db && a != b && b !in db[a].amigos && b !in db[a].convites
    ensures Inv(db[a := db[a].ComConvite(b, Enviado)][b := db[b].ComConvite(a, Recebido)])
  {
    var db' := db[a := db[a].ComConvite(b, Enviado)][b := db[b].ComConvite(a, Recebido)];
    NovoConviteRelacoes(db, a, b);
    SoAmizadeMudaDuas(db, a, b, db[a].ComConvite(b, Enviado), db[b].ComConvite(a, Recebido));
    SoAmizadeMudaPreserva(db, db');
  }

  lemma NovoConviteRelacoes(db: Contas, a: string, b: string)
    requires SemAutoRelacao(db) && AmizadeSimetrica(db) && ConvitesPareados(db)
    requires a in db && b in db && a != b && b !in db[a].amigos && b !in db[a].convites
    ensures var db' := db[a := db[a].ComConvite(b, Enviado)][b := db[b].ComConvite(a, Recebido)];
            SemAutoRelacao(db') && AmizadeSimetrica(db') && ConvitesPareados(db')
  {
    var db' := db[a := db[a].ComConvite(b, Enviado)][b := db[b].ComConvite(a, Recebido)];
    assert a !in db[b].amigos;
    forall x | x in db ensures db'[x].amigos == db[x].amigos {}
    AmizadeMoldura(db, db');
    forall x, y | x in db' && y in db'[x].convites
      ensures y in db' && x in db'[y].convites && db'[y].convites[x] == Oposto(db'[x].convites[y])
      ensures y !in db'[x].amigos
    {
      if (x == a && y == b) || (x == b && y == a) {
      } else {
        assert y in db[x].convites;
      }
    }
  }

  lemma AdicionarIdoloPreservaInv(db: Contas, fa: string, idolo: string)
    requires Inv(db)
    ensures Inv(AdicionarIdolo(db, fa, idolo).depois)
  {
    if fa != idolo && fa in db && idolo in db && idolo !in db[fa].inimigos {
      var db' := db[fa := db[fa].ComIdolo(idolo)][idolo := db[idolo].ComFa(fa)];
      forall l | l in db
        ensures db'[l].login == db[l].login && db'[l].perfil == db[l].perfil
        ensures db'[l].amigos == db[l].amigos && db'[l].convites == db[l].convites
        ensures db'[l].inimigos == db[l].inimigos && db'[l].paqueras == db[l].paqueras
      {
      }
      ChavesMoldura(db, db');
      NomesMoldura(db, db');
      AmizadeMoldura(db, db');
      InimizadeMoldura(db, db');
      PaquerasMoldura(db, db');
      ConvitesMoldura(db, db');
      IdoloRelacoes(db, fa, idolo);
    }
  }

  lemma IdoloRelacoes(db: Contas, fa: string, idolo: string)
    requires SemAutoRelacao(db) && FasEIdolos(db) && fa in db && idolo in db && fa != idolo
    ensures var db' := db[fa := db[fa].ComIdolo(idolo)][idolo := db[idolo].ComFa(fa)];
            SemAutoRelacao(db') && FasEIdolos(db')
  {
    var db' := db[fa := db[fa].ComIdolo(idolo)][idolo := db[idolo].ComFa(fa)];
    forall x, y | x in db' && y in db'[x].idolos ensures y in db' && x in db'[y].fas {
      if !(x == fa && y == idolo) {
        assert y in db[x].idolos;
      }
    }
    forall x, y | x in db' && y in db'[x].fas ensures y in db' && x in db'[y].idolos {
      if !(x == idolo && y == fa) {
        assert y in db[x].fas;
      }
    }
  }

  lemma AdicionarInimigoPreservaInv(db: Contas, usuario: string, inimigo: string)
    requires Inv(db)
    ensures Inv(AdicionarInimigo(db, usuario, inimigo).depois)
  {
    if usuario != inimigo && usuario in db && inimigo in db && inimigo !in db[usuario].inimigos {
      var db' := db[usuario := db[usuario].ComInimigo(inimigo)][inimigo := db[inimigo].ComInimigo(usuario)];
      forall l | l in db
        ensures db'[l].login == db[l].login && db'[l].perfil == db[l].perfil
        ensures db'[l].amigos == db[l].amigos && db'[l].convites == db[l].convites
        ensures db'[l].idolos == db[l].idolos && db'[l].fas == db[l].fas
        ensures db'[l].paqueras == db[l].paqueras
      {
      }
      ChavesMoldura(db, db');
      NomesMoldura(db, db');
      AmizadeMoldura(db, db');
      FasEIdolosMoldura(db, db');
      PaquerasMoldura(db, db');
      ConvitesMoldura(db, db');
      InimigoRelacoes(db, usuario, inimigo);
    }
  }

  lemma InimigoRelacoes(db: Contas, usuario: string, inimigo: string)
    requires SemAutoRelacao(db) && InimizadeSimetrica(db)
    requires usuario in db && inimigo in db && usuario != inimigo
    ensures var db' := db[usuario := db[usuario].ComInimigo(inimigo)][inimigo := db[inimigo].ComInimigo(usuario)];
            SemAutoRelacao(db') && InimizadeSimetrica(db')
  {
    var db' := db[usuario := db[usuario].ComInimigo(inimigo)][inimigo := db[inimigo].ComInimigo(usuario)];
    forall x, y | x in db' && y in db'[x].inimigos ensures y in db' && x in db'[y].inimigos {
      if !((x == usuario && y == inimigo) || (x == inimigo && y == usuario)) {
        assert y in db[x].inimigos;
      }
    }
  }

  lemma AdicionarPaqueraPreservaInv(db: Contas, usuario: string, paquera: string)
    requires Inv(db)
    ensures Inv(AdicionarPaquera(db, usuario, paquera).depois)
  {
    if usuario != paquera && usuario in db && paquera in db && paquera !in db[usuario].inimigos {
      ComPaqueraPreserva(db, usuario, paquera);
      if usuario in db[paquera].paqueras {
        RecadoSistemaPreservaInv(db[usuario := db[usuario].ComPaquera(paquera)], usuario, paquera);
      }
    }
  }

  /** Recording a crush on another existing account keeps the invariant. */
  lemma ComPaqueraPreserva(db: Contas, usuario: string, paquera: string)
    requires Inv(db) && usuario in db && paquera in db && usuario != paquera
    ensures Inv(db[usuario := db[usuario].ComPaquera(paquera)])
  {
    var db1 := db[usuario := db[usuario].ComPaquera(paquera)];
    forall l | l in db
      ensures db1[l].login == db[l].login && db1[l].perfil == db[l].perfil
      ensures db1[l].amigos == db[l].amigos && db1[l].convites == db[l].convites
      ensures db1[l].idolos == db[l].idolos && db1[l].fas == db[l].fas
      ensures db1[l].inimigos == db[l].inimigos
    {
    }
    ChavesMoldura(db, db1);
    NomesMoldura(db, db1);
    AmizadeMoldura(db, db1);
    InimizadeMoldura(db, db1);
    FasEIdolosMoldura(db, db1);
    ConvitesMoldura(db, db1);
    PaqueraRelacoes(db, usuario, paquera);
  }

  lemma PaqueraRelacoes(db: Contas, usuario: string, paquera: string)
    requires SemAutoRelacao(db) && PaquerasExistem(db)
    requires usuario in db && paquera in db && usuario != paquera
    ensures var db1 := db[usuario := db[usuario].ComPaquera(paquera)];
            SemAutoRelacao(db1) && PaquerasExistem(db1)
  {
  }

  /** Delivering one message to an account keeps the invariant. */
  lemma ComRecadoPreserva(db: Contas, l: string, m: Recado)
    requires Inv(db) && l in db
    ensures Inv(db[l := db[l].ComRecado(m)])
  {
    var db' := db[l := db[l].ComRecado(m)];
    forall k | k in db
      ensures db'[k].login == db[k].login && db'[k].perfil == db[k].perfil
      ensures db'[k].amigos == db[k].amigos && db'[k].convites == db[k].convites
      ensures db'[k].inimigos == db[k].inimigos && db'[k].idolos == db[k].idolos
      ensures db'[k].fas == db[k].fas && db'[k].paqueras == db[k].paqueras
    {
    }
    SoMensagensOuPerfil(db, db');
  }

  lemma RecadoSistemaPreservaInv(db: Contas, u1: string, u2: string)
    requires Inv(db)
    ensures Inv(EnviarRecadoSistema(db, u1, u2).depois)
  {
    if && u1 in db && u2 in db && u2 !in db[u1].inimigos && u1 !in db[u2].inimigos
       && Nome(db[u1]).Ok? && Nome(db[u2]).Ok? {
      var m1, m2 := RecadoPaquera(Nome(db[u2]).value), RecadoPaquera(Nome(db[u1]).value);
      ComRecadoPreserva(db, u1, m1);
      ComRecadoPreserva(db[u1 := db[u1].ComRecado(m1)], u2, m2);
    }
  }

  lemma EnviarRecadoPreservaInv(db: Contas, remetente: string, destinatario: string, mensagem: string)
    requires Inv(db)
    ensures Inv(EnviarRecado(db, remetente, destinatario, mensagem).depois)
  {
    if remetente in db && destinatario in db && destinatario !in db[remetente].inimigos {
      ComRecadoPreserva(db, destinatario, Recado(db[remetente].login, mensagem));
    }
  }
}
