/** What the relationship engine promises, proved on the rules of GerenciadorUsuarios:
    the order of the errors, the invitation handshake, the blocking power of an enemy,
    the two-sided bookkeeping of idols and enemies, the one-sided crush with its
    reciprocal notice, and that nothing but the named accounts changes. */
module PropriedadesUsuarios {
  import opened Erros
  import opened Colecoes
  import opened Recados
  import opened Usuarios
  import opened RegrasUsuarios

  /** Only the accounts in `mudam` may differ, and no account appears or disappears. */
  ghost predicate SoMudam(db: Contas, db': Contas, mudam: set<string>) {
    db'.Keys == db.Keys && forall l :: l in db && l !in mudam ==> db'[l] == db[l]
  }

  // ---------------------------------------------------------------------------
  // criarUsuario

  /** A login in use fails with UsuarioJaExiste and changes nothing; otherwise exactly one
      entry, the new account, is added. */
  lemma CriarUsuarioEfeito(db: Contas, login: string, senha: string, nome: string)
    ensures var r := CriarUsuario(db, login, senha, nome);
            && (login in db ==> r == Passo(Err(UsuarioJaExiste), db))
            && (login !in db ==>
                  && r.saida == Ok(()) && r.depois.Keys == db.Keys + {login}
                  && |r.depois| == |db| + 1
                  && r.depois[login] == NovaConta(login, senha, nome)
                  && forall l :: l in db ==> r.depois[l] == db[l])
  {
  }

  // ---------------------------------------------------------------------------
  // adicionarAmigo

  /** The errors of adicionarAmigo, in the order they are checked, and the condition under
      which it succeeds; a failing call changes nothing. */
  lemma AdicionarAmigoOrdemDosErros(db: Contas, a: string, b: string)
    ensures var r := AdicionarAmigo(db, a, b);
            && (r.saida.Err? ==> r.depois == db)
            && (a !in db || b !in db ==> r.saida == Err(UsuarioNaoEncontrado))
            && (a in db && b in db && b in db[a].inimigos ==> r.saida == Err(ErroInimigo(db[b])))
            && (a in db && b in db && b !in db[a].inimigos && a == b ==> r.saida == Err(AutoAmizade))
            && ((a in db && b in db && b !in db[a].inimigos && a != b && b in db[a].amigos) ==>
                  r.saida == Err(AmigoJaAdicionado(MsgJaAmigo)))
            && ((a in db && b in db && b !in db[a].inimigos && a != b && b !in db[a].amigos
                 && ConviteEnviado(db[a].convites, b)) ==>
                  r.saida == Err(AmigoJaAdicionado(MsgAguardandoAceitacao)))
            && (r.saida.Ok? <==> a in db && b in db && b !in db[a].inimigos && a != b
                                 && b !in db[a].amigos && !ConviteEnviado(db[a].convites, b))
  {
  }

  /** With the invariant, the enemy error names the target by its profile "nome", and a
      self-invitation always reports AutoAmizade. */
  lemma AdicionarAmigoErrosSobInv(db: Contas, a: string, b: string)
    requires Inv(db) && a in db && b in db
    ensures b in db[a].inimigos ==> AdicionarAmigo(db, a, b).saida == Err(Inimigo(db[b].perfil["nome"]))
    ensures a == b ==> AdicionarAmigo(db, a, b).saida == Err(AutoAmizade)
  {
  }

  /** A successful call that finds a RECEIVED invitation from `b` completes the handshake:
      each gains the other as its last friend and both invitation entries are gone;
      otherwise it records SENT on `a` and RECEIVED on `b` and the friends stay as they were.
      No other account changes. */
  lemma AdicionarAmigoEfeito(db: Contas, a: string, b: string)
    requires AdicionarAmigo(db, a, b).saida.Ok?
    ensures a in db && b in db && a != b
    ensures var db' := AdicionarAmigo(db, a, b).depois;
            && SoMudam(db, db', {a, b})
            && (ConviteRecebido(db[a].convites, b) ==>
                  && db'[a].amigos == db[a].amigos + [b] && b !in db'[a].convites
                  && db'[b].amigos == Insert(db[b].amigos, a) && a !in db'[b].convites)
            && (!ConviteRecebido(db[a].convites, b) ==>
                  && db'[a].amigos == db[a].amigos && db'[b].amigos == db[b].amigos
                  && ConviteEnviado(db'[a].convites, b) && ConviteRecebido(db'[b].convites, a))
            && db'[a].convites - {b} == db[a].convites - {b}
            && db'[b].convites - {a} == db[b].convites - {a}
  {
    var db' := AdicionarAmigo(db, a, b).depois;
    assert db'[a].convites - {b} == db[a].convites - {b};
    assert db'[b].convites - {a} == db[b].convites - {a};
  }

  /** The handshake from "unrelated" to "connected": `a` invites `b` (pending on both sides,
      not yet friends, a repeat is refused as pending), then `b` invites `a`, which makes
      them friends, last in each other's lists, with no invitation left between them. */
  lemma Handshake(db: Contas, a: string, b: string)
    requires Inv(db) && a in db && b in db && a != b
    requires b !in db[a].inimigos && b !in db[a].amigos && b !in db[a].convites
    ensures var r1 := AdicionarAmigo(db, a, b);
            var r2 := AdicionarAmigo(r1.depois, b, a);
            && r1.saida == Ok(())
            && ConviteEnviado(r1.depois[a].convites, b) && ConviteRecebido(r1.depois[b].convites, a)
            && SaoAmigos(r1.depois, a, b) == Ok(false)
            && AdicionarAmigo(r1.depois, a, b).saida == Err(AmigoJaAdicionado(MsgAguardandoAceitacao))
            && r2.saida == Ok(())
            && SaoAmigos(r2.depois, a, b) == Ok(true) && SaoAmigos(r2.depois, b, a) == Ok(true)
            && b !in r2.depois[a].convites && a !in r2.depois[b].convites
            && r2.depois[a].amigos == db[a].amigos + [b] && r2.depois[b].amigos == db[b].amigos + [a]
            && ListarAmigos(r2.depois, a) == Ok(Braced(db[a].amigos + [b]))
            && AdicionarAmigo(r2.depois, a, b).saida == Err(AmigoJaAdicionado(MsgJaAmigo))
            && AdicionarAmigo(r2.depois, b, a).saida == Err(AmigoJaAdicionado(MsgJaAmigo))
            && SoMudam(db, r2.depois, {a, b})
  {
    var r1 := AdicionarAmigo(db, a, b);
    var db1 := r1.depois;
    assert a !in db[b].amigos;
    assert a !in db[b].inimigos;
    assert a !in db[b].convites;
    assert db1[b].amigos == db[b].amigos;
    AdicionarAmigoPreservaInv(db, a, b);
    var db2 := AdicionarAmigo(db1, b, a).depois;
    assert db2[a].amigos == db[a].amigos + [b];
    assert db2[b].amigos == db[b].amigos + [a];
  }

  /** saoAmigos is symmetric and, given the invariant, one membership decides it. */
  lemma SaoAmigosSimetrico(db: Contas, a: string, b: string)
    requires Inv(db)
    ensures SaoAmigos(db, a, b) == SaoAmigos(db, b, a)
    ensures a in db && b in db ==> SaoAmigos(db, a, b) == Ok(b in db[a].amigos)
  {
  }

  // ---------------------------------------------------------------------------
  // Enemies

  /** The enemy error for target `c`, once the invariant guarantees its "nome". */
  function ErroDoInimigo(db: Contas, c: string): Erro
    requires c in db && "nome" in db[c].perfil
  {
    Inimigo(db[c].perfil["nome"])
  }

  /** An enemy, declared by either side, blocks friendship, idol, crush and this layer's
      enviarRecado in both directions, each failing with the target's name and no change. */
  lemma InimigoBloqueia(db: Contas, a: string, b: string)
    requires Inv(db) && a in db && b in db && b in db[a].inimigos
    ensures AdicionarAmigo(db, a, b) == Passo(Err(ErroDoInimigo(db, b)), db)
    ensures AdicionarAmigo(db, b, a) == Passo(Err(ErroDoInimigo(db, a)), db)
    ensures AdicionarIdolo(db, a, b) == Passo(Err(ErroDoInimigo(db, b)), db)
    ensures AdicionarIdolo(db, b, a) == Passo(Err(ErroDoInimigo(db, a)), db)
    ensures AdicionarPaquera(db, a, b) == Passo(Err(ErroDoInimigo(db, b)), db)
    ensures AdicionarPaquera(db, b, a) == Passo(Err(ErroDoInimigo(db, a)), db)
    ensures forall m :: EnviarRecado(db, a, b, m) == Passo(Err(ErroDoInimigo(db, b)), db)
    ensures forall m :: EnviarRecado(db, b, a, m) == Passo(Err(ErroDoInimigo(db, a)), db)
  {
    assert a in db[b].inimigos;
    assert a != b;
  }

  /** adicionarInimigo: self fails first (even for unknown logins), an existing enemy fails
      with RelacaoExistente, and success adds each to the other's enemies and nothing else. */
  lemma AdicionarInimigoEfeito(db: Contas, u: string, i: string)
    ensures u == i ==> AdicionarInimigo(db, u, i) == Passo(Err(AutoRelacao(MsgInimigoDeSi)), db)
    ensures u != i && (u !in db || i !in db) ==> AdicionarInimigo(db, u, i) == Passo(Err(UsuarioNaoEncontrado), db)
    ensures (u != i && u in db && i in db && i in db[u].inimigos) ==>
              AdicionarInimigo(db, u, i) == Passo(Err(RelacaoExistente(MsgJaInimigo)), db)
    ensures u != i && u in db && i in db && i !in db[u].inimigos ==>
              var db' := AdicionarInimigo(db, u, i).depois;
              && AdicionarInimigo(db, u, i).saida == Ok(())
              && db' == db[u := db[u].(inimigos := db[u].inimigos + {i})][i := db[i].(inimigos := db[i].inimigos + {u})]
              && SoMudam(db, db', {u, i})
  {
  }

  /** Declaring an enemy is visible from both sides at once, and afterwards friendship,
      idol and crush are refused in both directions with the target's name, and a second
      declaration, from either side, fails with RelacaoExistente. */
  lemma DeclararInimigo(db: Contas, a: string, b: string)
    requires Inv(db) && a in db && b in db && a != b && b !in db[a].inimigos
    ensures var db' := AdicionarInimigo(db, a, b).depois;
            && b in db'[a].inimigos && a in db'[b].inimigos
            && AdicionarAmigo(db', b, a).saida == Err(ErroDoInimigo(db, a))
            && AdicionarAmigo(db', a, b).saida == Err(ErroDoInimigo(db, b))
            && AdicionarIdolo(db', a, b).saida == Err(ErroDoInimigo(db, b))
            && AdicionarIdolo(db', b, a).saida == Err(ErroDoInimigo(db, a))
            && AdicionarPaquera(db', a, b).saida == Err(ErroDoInimigo(db, b))
            && AdicionarPaquera(db', b, a).saida == Err(ErroDoInimigo(db, a))
            && AdicionarInimigo(db', a, b).saida == Err(RelacaoExistente(MsgJaInimigo))
            && AdicionarInimigo(db', b, a).saida == Err(RelacaoExistente(MsgJaInimigo))
  {
    var db' := AdicionarInimigo(db, a, b).depois;
    AdicionarInimigoPreservaInv(db, a, b);
    InimigoBloqueia(db', a, b);
  }

  // ---------------------------------------------------------------------------
  // Idols and fans

  /** adicionarIdolo: self fails first, then unknown logins, then an enemy; success adds the
      idol to the fan's idols and the fan to the idol's fans and changes nothing else. */
  lemma AdicionarIdoloEfeito(db: Contas, fa: string, idolo: string)
    ensures fa == idolo ==> AdicionarIdolo(db, fa, idolo) == Passo(Err(AutoRelacao(MsgFaDeSi)), db)
    ensures (fa != idolo && (fa !in db || idolo !in db)) ==>
              AdicionarIdolo(db, fa, idolo) == Passo(Err(UsuarioNaoEncontrado), db)
    ensures (fa != idolo && fa in db && idolo in db && idolo in db[fa].inimigos) ==>
              AdicionarIdolo(db, fa, idolo) == Passo(Err(ErroInimigo(db[idolo])), db)
    ensures fa != idolo && fa in db && idolo in db && idolo !in db[fa].inimigos ==>
              var db' := AdicionarIdolo(db, fa, idolo).depois;
              && AdicionarIdolo(db, fa, idolo).saida == Ok(())
              && db'[fa] == db[fa].(idolos := db[fa].idolos + {idolo})
              && db'[idolo] == db[idolo].(fas := db[idolo].fas + {fa})
              && EhFa(db', fa, idolo) == Ok(true)
              && SoMudam(db, db', {fa, idolo})
  {
  }

  /** A second identical adicionarIdolo is not refused: it succeeds and, both sets already
      holding the pair, changes nothing. */
  lemma AdicionarIdoloRepetido(db: Contas, fa: string, idolo: string)
    requires Inv(db) && fa in db && idolo in db[fa].idolos && idolo !in db[fa].inimigos
    ensures AdicionarIdolo(db, fa, idolo) == Passo(Ok(()), db)
  {
    assert fa in db[idolo].fas && fa != idolo;
    var db' := AdicionarIdolo(db, fa, idolo).depois;
    assert db[fa].idolos + {idolo} == db[fa].idolos;
    assert db[idolo].fas + {fa} == db[idolo].fas;
    assert db'[fa] == db[fa];
    assert db'[idolo] == db[idolo];
    assert db' == db;
  }

  // ---------------------------------------------------------------------------
  // Crushes

  /** adicionarPaquera: self fails first (even for unknown logins), then unknown logins,
      then a target the caller declared an enemy, each with no change. */
  lemma AdicionarPaqueraErros(db: Contas, u: string, p: string)
    ensures u == p ==> AdicionarPaquera(db, u, p) == Passo(Err(AutoRelacao(MsgPaqueraDeSi)), db)
    ensures (u != p && (u !in db || p !in db)) ==>
              AdicionarPaquera(db, u, p) == Passo(Err(UsuarioNaoEncontrado), db)
    ensures (u != p && u in db && p in db && p in db[u].inimigos) ==>
              AdicionarPaquera(db, u, p) == Passo(Err(ErroInimigo(db[p])), db)
  {
  }

  /** A crush that is not reciprocal changes the caller's crushes only. */
  lemma PaqueraUnilateral(db: Contas, u: string, p: string)
    requires u in db && p in db && u != p && p !in db[u].inimigos && u !in db[p].paqueras
    ensures AdicionarPaquera(db, u, p) == Passo(Ok(()), db[u := db[u].(paqueras := db[u].paqueras + {p})])
    ensures EhPaquera(AdicionarPaquera(db, u, p).depois, u, p) == Ok(true)
  {
  }

  /** A reciprocal crush succeeds, given the invariant, and appends one "Sistema" message to
      each side naming the other; only those two accounts change. */
  lemma PaqueraReciproca(db: Contas, u: string, p: string)
    requires Inv(db) && u in db && p in db && u != p && p !in db[u].inimigos && u in db[p].paqueras
    ensures var db' := AdicionarPaquera(db, u, p).depois;
            && AdicionarPaquera(db, u, p).saida == Ok(())
            && db'[u] == db[u].(paqueras := db[u].paqueras + {p},
                               recados := db[u].recados + [Recado("Sistema", db[p].perfil["nome"] + SufixoPaquera)])
            && db'[p] == db[p].(recados := db[p].recados + [Recado("Sistema", db[u].perfil["nome"] + SufixoPaquera)])
            && SoMudam(db, db', {u, p})
  {
    assert u !in db[p].inimigos;
  }

  /** A crush already recorded is not refused. When it is one-sided the repeat changes
      nothing; when it is reciprocal the notification is sent again, so each side gets one
      more "Sistema" message and the store does change. */
  lemma AdicionarPaqueraRepetida(db: Contas, u: string, p: string)
    requires Inv(db) && u in db && p in db[u].paqueras && p !in db[u].inimigos
    ensures AdicionarPaquera(db, u, p).saida == Ok(())
    ensures u !in db[p].paqueras ==> AdicionarPaquera(db, u, p).depois == db
    ensures u in db[p].paqueras ==>
              var db' := AdicionarPaquera(db, u, p).depois;
              && db'[u].recados == db[u].recados + [Recado("Sistema", db[p].perfil["nome"] + SufixoPaquera)]
              && db'[p].recados == db[p].recados + [Recado("Sistema", db[u].perfil["nome"] + SufixoPaquera)]
              && db' != db
  {
    assert p in db && u != p;
    assert db[u].paqueras + {p} == db[u].paqueras;
    if u !in db[p].paqueras {
      PaqueraUnilateral(db, u, p);
      assert db[u].(paqueras := db[u].paqueras + {p}) == db[u];
      assert db[u := db[u]] == db;
    } else {
      PaqueraReciproca(db, u, p);
      var db' := AdicionarPaquera(db, u, p).depois;
      assert |db'[u].recados| == |db[u].recados| + 1;
    }
  }

  /** With the invariant, every failure of adicionarPaquera leaves the store unchanged: the
      enmity re-check inside enviarRecadoSistema never fires after the crush was recorded. */
  lemma PaqueraFalhaSemEfeito(db: Contas, u: string, p: string)
    requires Inv(db)
    ensures AdicionarPaquera(db, u, p).saida.Err? ==> AdicionarPaquera(db, u, p).depois == db
  {
    if u != p && u in db && p in db && p !in db[u].inimigos && u in db[p].paqueras {
      PaqueraReciproca(db, u, p);
    }
  }

  /** Outside the invariant (enmity recorded on the crush's side only), the re-check does
      fire after the crush was recorded: the call reports InimigoException and yet the
      caller's crushes have grown. */
  lemma PaqueraReverificacaoTardia(db: Contas, u: string, p: string)
    requires u in db && p in db && u != p && p !in db[u].inimigos
    requires u in db[p].paqueras && u in db[p].inimigos
    ensures AdicionarPaquera(db, u, p)
            == Passo(Err(ErroInimigo(db[p])), db[u := db[u].(paqueras := db[u].paqueras + {p})])
  {
  }

  // ---------------------------------------------------------------------------
  // enviarRecado of the user manager

  /** This layer's enviarRecado appends (sender login, text) to the recipient's queue only,
      and does not refuse a message to oneself. */
  lemma EnviarRecadoGerenciador(db: Contas, rem: string, dest: string, m: string)
    requires Inv(db) && rem in db && dest in db && dest !in db[rem].inimigos
    ensures var db' := EnviarRecado(db, rem, dest, m).depois;
            && EnviarRecado(db, rem, dest, m).saida == Ok(())
            && db'[dest].recados == db[dest].recados + [Recado(rem, m)]
            && db'[dest] == db[dest].(recados := db'[dest].recados)
            && SoMudam(db, db', {dest})
    ensures EnviarRecado(db, rem, rem, m).saida == Ok(())
  {
    assert rem !in db[rem].inimigos;
  }
}
