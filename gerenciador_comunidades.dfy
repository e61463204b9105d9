/** GerenciadorComunidades: the registry of communities by name. The rules are stated on
    values (a map from name to Comunidade); the class is proved to follow them. */
module GerenciamentoComunidades {
  import opened Erros
  import opened Colecoes
  import opened Comunidades

  type Registro = map<string, Comunidade>

  /** Each community is stored under its own name and is valid. */
  ghost predicate Inv(reg: Registro) {
    forall n :: n in reg ==> reg[n].nome == n && reg[n].Valid()
  }

  /** getComunidade. */
  function Buscar(reg: Registro, nome: string): (r: Result<Comunidade>)
    ensures r.Ok? <==> nome in reg
    ensures r.Ok? ==> r.value == reg[nome]
    ensures r.Err? ==> r.erro == ComunidadeNaoEncontrada
  {
    if nome in reg then Ok(reg[nome]) else Err(ComunidadeNaoEncontrada)
  }

  /** criarComunidade. */
  function Criar(reg: Registro, nome: string, descricao: string, dono: string): Passo<(), Registro> {
    if nome in reg then Passo(Err(ComunidadeJaExiste), reg)
    else Passo(Ok(()), reg[nome := NovaComunidade(nome, descricao, dono)])
  }

  /** adicionarMembro: the lookup, then addMember on the community found. */
  function AdicionarMembroEm(reg: Registro, nome: string, login: string): Passo<(), Registro> {
    match Buscar(reg, nome)
    case Err(e) => Passo(Err(e), reg)
    case Ok(c) =>
      var p := c.ComMembro(login);
      Passo(p.saida, reg[nome := p.depois])
  }

  function Descricao(reg: Registro, nome: string): Result<string> {
    var c :- Buscar(reg, nome);
    Ok(c.descricao)
  }

  function Dono(reg: Registro, nome: string): Result<string> {
    var c :- Buscar(reg, nome);
    Ok(c.dono)
  }

  /** listarMembros: "{" + the members joined by "," + "}". */
  function ListarMembrosDe(reg: Registro, nome: string): Result<string> {
    var c :- Buscar(reg, nome);
    Ok(Braced(c.membros))
  }

  /** The empty registry satisfies the invariant, and creation and joining keep it. */
  lemma InvPreservado(reg: Registro, nome: string, descricao: string, dono: string, login: string)
    requires Inv(reg)
    ensures Inv(map[])
    ensures Inv(Criar(reg, nome, descricao, dono).depois)
    ensures Inv(AdicionarMembroEm(reg, nome, login).depois)
  {
    if nome in reg {
      ComMembroEfeito(reg[nome], login);
    }
  }

  /** A new community answers with its owner, its description and "{owner}", and no other
      community changes. */
  lemma CriarEntaoConsultar(reg: Registro, nome: string, descricao: string, dono: string, outra: string)
    requires nome !in reg
    ensures var reg' := Criar(reg, nome, descricao, dono).depois;
            && Criar(reg, nome, descricao, dono).saida == Ok(())
            && Dono(reg', nome) == Ok(dono)
            && Descricao(reg', nome) == Ok(descricao)
            && ListarMembrosDe(reg', nome) == Ok("{" + dono + "}")
            && (outra != nome ==> Buscar(reg', outra) == Buscar(reg, outra))
  {
  }

  /** A taken name is refused and the registry is left as it was. */
  lemma CriarRepetido(reg: Registro, nome: string, descricao: string, dono: string)
    requires nome in reg
    ensures Criar(reg, nome, descricao, dono) == Passo(Err(ComunidadeJaExiste), reg)
  {
  }

  /** Every lookup by an unknown name fails with ComunidadeNaoEncontrada, and adicionarMembro
      then changes nothing. */
  lemma NomeDesconhecido(reg: Registro, nome: string, login: string)
    requires nome !in reg
    ensures Buscar(reg, nome) == Err(ComunidadeNaoEncontrada)
    ensures Descricao(reg, nome) == Err(ComunidadeNaoEncontrada)
    ensures Dono(reg, nome) == Err(ComunidadeNaoEncontrada)
    ensures ListarMembrosDe(reg, nome) == Err(ComunidadeNaoEncontrada)
    ensures AdicionarMembroEm(reg, nome, login) == Passo(Err(ComunidadeNaoEncontrada), reg)
  {
  }

  /** Joining changes the named community's members only: a new member is appended to the
      listing, a repeated one is refused. */
  lemma AdicionarMembroEfeito(reg: Registro, nome: string, login: string, outra: string)
    requires Inv(reg) && nome in reg
    ensures var p := AdicionarMembroEm(reg, nome, login);
            && (outra != nome ==> Buscar(p.depois, outra) == Buscar(reg, outra))
            && Dono(p.depois, nome) == Dono(reg, nome)
            && Descricao(p.depois, nome) == Descricao(reg, nome)
            && (login in reg[nome].membros ==> p == Passo(Err(UsuarioJaMembro), reg))
            && (login !in reg[nome].membros ==>
                  p.saida == Ok(()) &&
                  ListarMembrosDe(p.depois, nome) == Ok("{" + Join(",", reg[nome].membros) + "," + login + "}"))
  {
    var c := reg[nome];
    ComMembroEfeito(c, login);
    if login in c.membros {
      assert reg[nome := c] == reg;
    } else {
      JoinSnoc(",", c.membros, login);
      assert AdicionarMembroEm(reg, nome, login).depois[nome].membros == c.membros + [login];
      assert Braced(c.membros + [login]) == "{" + Join(",", c.membros) + "," + login + "}";
    }
  }

  class GerenciadorComunidades {
    var comunidades: map<string, Community>

    /** Every community is stored under its own name, is valid, and is its own object. */
    ghost predicate Valid()
      reads this, comunidades.Values
    {
      && (forall n :: n in comunidades ==> comunidades[n].name == n && comunidades[n].Valid())
      && (forall n1, n2 :: n1 in comunidades && n2 in comunidades && n1 != n2 ==> comunidades[n1] != comunidades[n2])
    }

    ghost function Abs(): Registro
      reads this, comunidades.Values
    {
      map n | n in comunidades :: comunidades[n].State()
    }

    constructor ()
      ensures Valid() && Abs() == map[]
    {
      comunidades := map[];
    }

    method AdicionarMembro(nomeComunidade: string, login: string) returns (r: Result<()>)
      requires Valid()
      modifies comunidades.Values
      ensures Valid() && comunidades == old(comunidades)
      ensures r == AdicionarMembroEm(old(Abs()), nomeComunidade, login).saida
      ensures Abs() == AdicionarMembroEm(old(Abs()), nomeComunidade, login).depois
    {
      ghost var reg := Abs();
      var comunidade :- GetComunidade(nomeComunidade);
      assert reg[nomeComunidade] == comunidade.State();
      r := comunidade.AddMember(login);
      forall n | n in comunidades
        ensures comunidades[n].name == n && comunidades[n].Valid()
      {
        if n != nomeComunidade {
          assert old(comunidades[n].Valid());
        } else {
          ComMembroEfeito(reg[n], login);
        }
      }
      assert Abs() == reg[nomeComunidade := comunidade.State()];
    }

    method CriarComunidade(nome: string, descricao: string, dono: string) returns (r: Result<()>)
      requires Valid()
      modifies this
      ensures Valid()
      ensures r == Criar(old(Abs()), nome, descricao, dono).saida
      ensures Abs() == Criar(old(Abs()), nome, descricao, dono).depois
    {
      if nome in comunidades {
        return Err(ComunidadeJaExiste);
      }
      var c := new Community(nome, descricao, dono);
      comunidades := comunidades[nome := c];
      r := Ok(());
      assert Abs() == old(Abs())[nome := NovaComunidade(nome, descricao, dono)];
    }

    function GetComunidade(nome: string): (r: Result<Community>)
      reads this
      ensures r.Ok? <==> nome in comunidades
      ensures r.Ok? ==> r.value == comunidades[nome]
      ensures r.Err? ==> r.erro == ComunidadeNaoEncontrada
    {
      if nome in comunidades then Ok(comunidades[nome]) else Err(ComunidadeNaoEncontrada)
    }

    function GetDescricao(nome: string): (r: Result<string>)
      reads this, comunidades.Values
      ensures r == Descricao(Abs(), nome)
    {
      var c :- GetComunidade(nome);
      Ok(c.GetDescription())
    }

    function GetDono(nome: string): (r: Result<string>)
      reads this, comunidades.Values
      ensures r == Dono(Abs(), nome)
    {
      var c :- GetComunidade(nome);
      Ok(c.GetOwner())
    }

    function ListarMembros(nome: string): (r: Result<string>)
      reads this, comunidades.Values
      requires Valid()
      ensures r == ListarMembrosDe(Abs(), nome)
    {
      var c :- GetComunidade(nome);
      Ok(Braced(c.GetMembers()))
    }

    method Zerar()
      modifies this
      ensures Valid() && Abs() == map[]
    {
      comunidades := map[];
    }
  }
}
