/** GerenciadorUsuarios: the user store, a map from login to Usuario object, and the
    relationship engine that updates two Usuario records at a time. Every method is proved
    to do what the rule of the same name in RegrasUsuarios says, on the value of the store
    (Abs); every query agrees with its rule. */
module GerenciamentoUsuarios {
  import opened Erros
  import opened Colecoes
  import opened Recados
  import opened Perfis
  import opened Usuarios
  import R = RegrasUsuarios

  /** Updating two distinct keys twice keeps the second values only. */
  lemma DuasAtualizacoes(m: R.Contas, a: string, b: string, x1: Conta, y1: Conta, x2: Conta, y2: Conta)
    requires a != b
    ensures m[a := x1][b := y1][a := x2][b := y2] == m[a := x2][b := y2]
  {
    var m1 := m[a := x1][b := y1][a := x2][b := y2];
    var m2 := m[a := x2][b := y2];
    assert m1.Keys == m2.Keys;
    assert forall k :: k in m1 ==> m1[k] == m2[k];
  }

  class GerenciadorUsuarios {
    var usuarios: map<string, Usuario>

    ghost function PerfisDe(): set<Perfil>
      reads this
    {
      set l | l in usuarios :: usuarios[l].perfil
    }

    /** Each record is stored under its own login and owns its own profile object. */
    ghost predicate Valid()
      reads this, usuarios.Values
    {
      && (forall l :: l in usuarios ==> usuarios[l].login == l && usuarios[l].Valid())
      && (forall l1, l2 :: l1 in usuarios && l2 in usuarios && l1 != l2 ==> usuarios[l1].perfil != usuarios[l2].perfil)
    }

    /** The value of the store. */
    ghost function Abs(): R.Contas
      reads this, usuarios.Values, PerfisDe()
    {
      map l | l in usuarios :: usuarios[l].State()
    }

    /** Changing the fields of the record stored under `l`, and of no other object, changes
        the value of the store under `l` only, and keeps the store valid. */
    twostate lemma SoUmMudou(l: string)
      requires old(Valid()) && l in usuarios && usuarios == old(usuarios) && usuarios[l].Valid()
      requires forall k :: k in usuarios && k != l ==> unchanged(usuarios[k])
      requires forall k :: k in usuarios ==> unchanged(usuarios[k].perfil)
      ensures Valid()
      ensures Abs() == old(Abs())[l := usuarios[l].State()]
    {
      forall k | k in usuarios
        ensures usuarios[k].login == k && usuarios[k].Valid()
      {
        if k != l {
          assert old(usuarios[k].Valid());
        }
      }
    }

    /** Changing the profile of the record stored under `l`, and no other object, changes
        the value of the store under `l` only. */
    twostate lemma SoPerfilMudou(l: string)
      requires old(Valid()) && l in usuarios && usuarios == old(usuarios)
      requires forall k :: k in usuarios ==> unchanged(usuarios[k])
      requires forall k :: k in usuarios && k != l ==> unchanged(usuarios[k].perfil)
      ensures Valid()
      ensures Abs() == old(Abs())[l := usuarios[l].State()]
    {
      forall k | k in usuarios
        ensures usuarios[k].login == k && usuarios[k].Valid()
      {
        assert old(usuarios[k].Valid());
      }
    }

    constructor ()
      ensures Valid() && usuarios == map[] && Abs() == map[]
    {
      usuarios := map[];
    }

    /** getUsuario. */
    function GetUsuario(login: string): (r: Result<Usuario>)
      reads this
      ensures r.Ok? <==> login in usuarios
      ensures r.Ok? ==> r.value == usuarios[login]
      ensures r.Err? ==> r.erro == UsuarioNaoEncontrado
    {
      if login in usuarios then Ok(usuarios[login]) else Err(UsuarioNaoEncontrado)
    }

    method CriarUsuario(login: string, senha: string, nome: string) returns (r: Result<()>)
      requires Valid()
      modifies this
      ensures Valid()
      ensures r == R.CriarUsuario(old(Abs()), login, senha, nome).saida
      ensures Abs() == R.CriarUsuario(old(Abs()), login, senha, nome).depois
      ensures forall l :: l in old(usuarios) ==> l in usuarios && usuarios[l] == old(usuarios[l])
    {
      if login in usuarios {
        return Err(UsuarioJaExiste);
      }
      var u := new Usuario(login, senha, nome);
      usuarios := usuarios[login := u];
      r := Ok(());
      assert Abs() == old(Abs())[login := NovaConta(login, senha, nome)];
    }

    /** The exception adicionarAmigo and its siblings throw for an enemy target: the target's
        "nome" is fetched first, and that fetch may throw instead. */
    function ErroInimigo(alvo: Usuario): (r: Erro)
      reads alvo.perfil
      ensures r == R.ErroInimigo(alvo.State())
    {
      match alvo.perfil.GetAtributo("nome")
      case Ok(nome) => Inimigo(nome)
      case Err(e) => e
    }

    method AdicionarAmigo(loginUsuario: string, loginAmigo: string) returns (r: Result<()>)
      requires Valid()
      modifies usuarios.Values
      ensures Valid() && usuarios == old(usuarios)
      ensures r == R.AdicionarAmigo(old(Abs()), loginUsuario, loginAmigo).saida
      ensures Abs() == R.AdicionarAmigo(old(Abs()), loginUsuario, loginAmigo).depois
    {
      ghost var db := Abs();
      var usuario :- GetUsuario(loginUsuario);
      var amigo :- GetUsuario(loginAmigo);
      ghost var cu, ca := usuario.State(), amigo.State();
      assert db[loginUsuario] == cu && db[loginAmigo] == ca;
      if loginAmigo in usuario.inimigos {
        return Err(ErroInimigo(amigo));
      }
      if loginUsuario == loginAmigo {
        return Err(AutoAmizade);
      }
      if loginAmigo in usuario.amigos {
        return Err(AmigoJaAdicionado(R.MsgJaAmigo));
      }
      if usuario.TemConvitePara(loginAmigo) {
        return Err(AmigoJaAdicionado(R.MsgAguardandoAceitacao));
      }
      if usuario.TemConviteDe(loginAmigo) {
        AceitarConvite(loginUsuario, loginAmigo);
      } else {
        Convidar(loginUsuario, loginAmigo);
      }
      r := Ok(());
    }

    /** The two sides of an accepted invitation: each becomes the other's friend and the
        invitation is removed from both. */
    method AceitarConvite(a: string, b: string)
      requires Valid() && a in usuarios && b in usuarios && a != b
      modifies usuarios[a], usuarios[b]
      ensures Valid() && usuarios == old(usuarios)
      ensures Abs() == old(Abs())[a := old(Abs())[a].ComAmigo(b).SemConvite(b)]
                                 [b := old(Abs())[b].ComAmigo(a).SemConvite(a)]
    {
      ghost var db := Abs();
      AmizadeMutua(a, b);
      ConvitesRemovidos(a, b);
      DuasAtualizacoes(db, a, b, db[a].ComAmigo(b), db[b].ComAmigo(a),
                       db[a].ComAmigo(b).SemConvite(b), db[b].ComAmigo(a).SemConvite(a));
    }

    /** `a` and `b` enter each other's friend sets. */
    method AmizadeMutua(a: string, b: string)
      requires Valid() && a in usuarios && b in usuarios && a != b
      modifies usuarios[a], usuarios[b]
      ensures Valid() && usuarios == old(usuarios)
      ensures Abs() == old(Abs())[a := old(Abs())[a].ComAmigo(b)][b := old(Abs())[b].ComAmigo(a)]
    {
      var usuario, amigo := usuarios[a], usuarios[b];
      ghost var db := Abs();
      ghost var cu, ca := usuario.State(), amigo.State();
      assert db[a] == cu && db[b] == ca;
      label L0:
      usuario.AdicionarAmigo(b);
      SoUmMudou@L0(a);
      assert usuarios[a].State() == cu.ComAmigo(b);
      label L1:
      amigo.AdicionarAmigo(a);
      SoUmMudou@L1(b);
      assert usuarios[b].State() == ca.ComAmigo(a);
    }

    /** The invitation between `a` and `b` is removed from both sides. */
    method ConvitesRemovidos(a: string, b: string)
      requires Valid() && a in usuarios && b in usuarios && a != b
      modifies usuarios[a], usuarios[b]
      ensures Valid() && usuarios == old(usuarios)
      ensures Abs() == old(Abs())[a := old(Abs())[a].SemConvite(b)][b := old(Abs())[b].SemConvite(a)]
    {
      var usuario, amigo := usuarios[a], usuarios[b];
      ghost var db := Abs();
      ghost var cu, ca := usuario.State(), amigo.State();
      assert db[a] == cu && db[b] == ca;
      label L0:
      usuario.RemoverConvite(b);
      SoUmMudou@L0(a);
      assert usuarios[a].State() == cu.SemConvite(b);
      label L1:
      amigo.RemoverConvite(a);
      SoUmMudou@L1(b);
      assert usuarios[b].State() == ca.SemConvite(a);
    }

    /** A new invitation: sent on `a`'s side, received on `b`'s. */
    method Convidar(a: string, b: string)
      requires Valid() && a in usuarios && b in usuarios && a != b
      modifies usuarios[a], usuarios[b]
      ensures Valid() && usuarios == old(usuarios)
      ensures Abs() == old(Abs())[a := old(Abs())[a].ComConvite(b, Enviado)]
                                 [b := old(Abs())[b].ComConvite(a, Recebido)]
    {
      var usuario, amigo := usuarios[a], usuarios[b];
      ghost var db := Abs();
      ghost var cu, ca := usuario.State(), amigo.State();
      assert db[a] == cu && db[b] == ca;
      label L0:
      usuario.AdicionarConvite(b, Enviado);
      SoUmMudou@L0(a);
      assert usuarios[a].State() == cu.ComConvite(b, Enviado);
      label L1:
      amigo.AdicionarConvite(a, Recebido);
      SoUmMudou@L1(b);
      assert usuarios[b].State() == ca.ComConvite(a, Recebido);
    }

    /** saoAmigos. */
    function SaoAmigos(login1: string, login2: string): (r: Result<bool>)
      reads this, usuarios.Values, PerfisDe()
      ensures r == R.SaoAmigos(Abs(), login1, login2)
    {
      var u1 :- GetUsuario(login1);
      var u2 :- GetUsuario(login2);
      Ok(login2 in u1.amigos && login1 in u2.amigos)
    }

    /** listarAmigos. */
    function ListarAmigos(login: string): (r: Result<string>)
      reads this, usuarios.Values, PerfisDe()
      requires Valid()
      ensures r == R.ListarAmigos(Abs(), login)
    {
      var usuario :- GetUsuario(login);
      Ok(Braced(usuario.GetAmigosOrdenados()))
    }

    /** zerar. */
    method Zerar()
      modifies this
      ensures Valid() && usuarios == map[] && Abs() == map[]
    {
      usuarios := map[];
    }

    method AdicionarIdolo(fa: string, idolo: string) returns (r: Result<()>)
      requires Valid()
      modifies usuarios.Values
      ensures Valid() && usuarios == old(usuarios)
      ensures r == R.AdicionarIdolo(old(Abs()), fa, idolo).saida
      ensures Abs() == R.AdicionarIdolo(old(Abs()), fa, idolo).depois
    {
      ghost var db := Abs();
      if fa == idolo {
        return Err(AutoRelacao(R.MsgFaDeSi));
      }
      var usuarioFa :- GetUsuario(fa);
      var usuarioIdolo :- GetUsuario(idolo);
      ghost var cf, ci := usuarioFa.State(), usuarioIdolo.State();
      assert db[fa] == cf && db[idolo] == ci;
      if idolo in usuarioFa.inimigos {
        return Err(ErroInimigo(usuarioIdolo));
      }
      label L0:
      usuarioFa.AdicionarIdolo(idolo);
      SoUmMudou@L0(fa);
      assert usuarios[fa].State() == cf.ComIdolo(idolo);
      label L1:
      usuarioIdolo.AdicionarFa(fa);
      SoUmMudou@L1(idolo);
      assert usuarios[idolo].State() == ci.ComFa(fa);
      r := Ok(());
    }

    method AdicionarPaquera(usuario: string, paquera: string) returns (r: Result<()>)
      requires Valid()
      modifies usuarios.Values
      ensures Valid() && usuarios == old(usuarios)
      ensures r == R.AdicionarPaquera(old(Abs()), usuario, paquera).saida
      ensures Abs() == R.AdicionarPaquera(old(Abs()), usuario, paquera).depois
    {
      ghost var db := Abs();
      if usuario == paquera {
        return Err(AutoRelacao(R.MsgPaqueraDeSi));
      }
      var u :- GetUsuario(usuario);
      var p :- GetUsuario(paquera);
      ghost var cu, cp := u.State(), p.State();
      assert db[usuario] == cu && db[paquera] == cp;
      if paquera in u.inimigos {
        return Err(ErroInimigo(p));
      }
      label L0:
      u.AdicionarPaquera(paquera);
      SoUmMudou@L0(usuario);
      assert usuarios[usuario].State() == cu.ComPaquera(paquera);
      if usuario in p.paqueras {
        r := EnviarRecadoSistema(usuario, paquera);
      } else {
        r := Ok(());
      }
    }

    /** enviarRecadoSistema (private in the source). */
    method EnviarRecadoSistema(usuario1: string, usuario2: string) returns (r: Result<()>)
      requires Valid()
      modifies usuarios.Values
      ensures Valid() && usuarios == old(usuarios)
      ensures r == R.EnviarRecadoSistema(old(Abs()), usuario1, usuario2).saida
      ensures Abs() == R.EnviarRecadoSistema(old(Abs()), usuario1, usuario2).depois
    {
      ghost var db := Abs();
      var u1 :- GetUsuario(usuario1);
      var u2 :- GetUsuario(usuario2);
      ghost var c1, c2 := u1.State(), u2.State();
      assert db[usuario1] == c1 && db[usuario2] == c2;
      if usuario2 in u1.inimigos || usuario1 in u2.inimigos {
        return Err(ErroInimigo(u2));
      }
      var nome1 :- u1.perfil.GetAtributo("nome");
      var nome2 :- u2.perfil.GetAtributo("nome");
      assert R.Nome(c1) == Ok(nome1) && R.Nome(c2) == Ok(nome2);
      label L0:
      u1.AdicionarRecado(R.RecadoPaquera(nome2));
      SoUmMudou@L0(usuario1);
      assert usuarios[usuario1].State() == c1.ComRecado(R.RecadoPaquera(nome2));
      ghost var db1 := db[usuario1 := c1.ComRecado(R.RecadoPaquera(nome2))];
      ghost var c2' := u2.State();
      assert db1[usuario2] == c2';
      label L1:
      u2.AdicionarRecado(R.RecadoPaquera(nome1));
      SoUmMudou@L1(usuario2);
      assert usuarios[usuario2].State() == c2'.ComRecado(R.RecadoPaquera(nome1));
      r := Ok(());
    }

    method AdicionarInimigo(usuario: string, inimigo: string) returns (r: Result<()>)
      requires Valid()
      modifies usuarios.Values
      ensures Valid() && usuarios == old(usuarios)
      ensures r == R.AdicionarInimigo(old(Abs()), usuario, inimigo).saida
      ensures Abs() == R.AdicionarInimigo(old(Abs()), usuario, inimigo).depois
    {
      ghost var db := Abs();
      if usuario == inimigo {
        return Err(AutoRelacao(R.MsgInimigoDeSi));
      }
      var u :- GetUsuario(usuario);
      var i :- GetUsuario(inimigo);
      ghost var cu, ci := u.State(), i.State();
      assert db[usuario] == cu && db[inimigo] == ci;
      if inimigo in u.inimigos {
        return Err(RelacaoExistente(R.MsgJaInimigo));
      }
      label L0:
      u.AdicionarInimigo(inimigo);
      SoUmMudou@L0(usuario);
      assert usuarios[usuario].State() == cu.ComInimigo(inimigo);
      label L1:
      i.AdicionarInimigo(usuario);
      SoUmMudou@L1(inimigo);
      assert usuarios[inimigo].State() == ci.ComInimigo(usuario);
      r := Ok(());
    }

    /** ehFa. */
    function EhFa(loginFa: string, loginIdolo: string): (r: Result<bool>)
      reads this, usuarios.Values, PerfisDe()
      ensures r == R.EhFa(Abs(), loginFa, loginIdolo)
    {
      var fa :- GetUsuario(loginFa);
      Ok(loginIdolo in fa.idolos)
    }

    /** getFas. */
    ghost function GetFas(loginIdolo: string): (r: Result<string>)
      reads this, usuarios.Values, PerfisDe()
      ensures r == R.GetFas(Abs(), loginIdolo)
    {
      var idolo :- GetUsuario(loginIdolo);
      Ok(Braced(Enumeracao(idolo.fas)))
    }

    /** ehPaquera. */
    function EhPaquera(loginUsuario: string, loginPaquera: string): (r: Result<bool>)
      reads this, usuarios.Values, PerfisDe()
      ensures r == R.EhPaquera(Abs(), loginUsuario, loginPaquera)
    {
      var usuario :- GetUsuario(loginUsuario);
      Ok(loginPaquera in usuario.paqueras)
    }

    /** getPaqueras. */
    ghost function GetPaqueras(loginUsuario: string): (r: Result<string>)
      reads this, usuarios.Values, PerfisDe()
      ensures r == R.GetPaqueras(Abs(), loginUsuario)
    {
      var usuario :- GetUsuario(loginUsuario);
      Ok(Braced(Enumeracao(usuario.paqueras)))
    }

    /** enviarRecado of this layer (not called by Jackute). */
    method EnviarRecado(remetente: string, destinatario: string, mensagem: string) returns (r: Result<()>)
      requires Valid()
      modifies usuarios.Values
      ensures Valid() && usuarios == old(usuarios)
      ensures r == R.EnviarRecado(old(Abs()), remetente, destinatario, mensagem).saida
      ensures Abs() == R.EnviarRecado(old(Abs()), remetente, destinatario, mensagem).depois
    {
      ghost var db := Abs();
      var rem :- GetUsuario(remetente);
      var dest :- GetUsuario(destinatario);
      ghost var cr, cd := rem.State(), dest.State();
      assert db[remetente] == cr && db[destinatario] == cd;
      if destinatario in rem.inimigos {
        return Err(ErroInimigo(dest));
      }
      dest.AdicionarRecado(Recado(rem.login, mensagem));
      SoUmMudou(destinatario);
      assert usuarios[destinatario].State() == cd.ComRecado(Recado(cr.login, mensagem));
      r := Ok(());
    }
  }
}
