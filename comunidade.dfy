/** Community: a named group with an owner, a description and an insertion-ordered member
    set whose first member is the owner. */
module Comunidades {
  import opened Erros
  import opened Colecoes

  /** The value of a Community. */
  datatype Comunidade = Comunidade(nome: string, descricao: string, dono: string, membros: seq<string>)
  {
    /** The owner comes first and no member appears twice. */
    ghost predicate Valid() {
      NoDup(membros) && |membros| > 0 && membros[0] == dono
    }

    /** addMember: a member already present is refused, a new one goes last. */
    function ComMembro(login: string): Passo<(), Comunidade> {
      if login in membros then Passo(Err(UsuarioJaMembro), this)
      else Passo(Ok(()), this.(membros := Insert(membros, login)))
    }

    /** setDescription. */
    function ComDescricao(d: string): Comunidade {
      this.(descricao := d)
    }
  }

  /** The community the constructor builds. */
  function NovaComunidade(nome: string, descricao: string, dono: string): (c: Comunidade)
    ensures c.Valid()
    ensures c.membros == [dono] && c.nome == nome && c.descricao == descricao && c.dono == dono
  {
    Comunidade(nome, descricao, dono, [dono])
  }

  /** addMember of a non-member appends it after the members already there; of a member
      it fails with UsuarioJaMembro and changes nothing. Name, owner and description never
      change, and the community stays valid. */
  lemma ComMembroEfeito(c: Comunidade, login: string)
    requires c.Valid()
    ensures var p := c.ComMembro(login);
            && p.depois.Valid()
            && p.depois.nome == c.nome && p.depois.dono == c.dono && p.depois.descricao == c.descricao
            && (login in c.membros ==> p.saida == Err(UsuarioJaMembro) && p.depois == c)
            && (login !in c.membros ==> p.saida == Ok(()) && p.depois.membros == c.membros + [login])
  {
    if login !in c.membros {
      var m := Insert(c.membros, login);
      assert m == c.membros + [login];
      assert m[0] == c.membros[0];
    }
  }

  /** setDescription changes the description and nothing else. */
  lemma ComDescricaoEfeito(c: Comunidade, d: string)
    requires c.Valid()
    ensures c.ComDescricao(d).Valid() && c.ComDescricao(d).descricao == d
    ensures c.ComDescricao(d).(descricao := c.descricao) == c
  {
  }

  class Community {
    const name: string
    var description: string
    const owner: string
    var members: seq<string>

    ghost function State(): Comunidade
      reads this
    {
      Comunidade(name, description, owner, members)
    }

    ghost predicate Valid()
      reads this
    {
      State().Valid()
    }

    /** The owner is the first member. */
    constructor (name: string, description: string, owner: string)
      ensures Valid() && State() == NovaComunidade(name, description, owner)
    {
      this.name := name;
      this.description := description;
      this.owner := owner;
      members := Insert([], owner);
    }

    function GetName(): (r: string)
      reads this
      ensures r == State().nome
    {
      name
    }

    method SetDescription(description: string)
      requires Valid()
      modifies this
      ensures Valid()
      ensures State() == old(State()).ComDescricao(description)
    {
      this.description := description;
    }

    method AddMember(login: string) returns (r: Result<()>)
      requires Valid()
      modifies this
      ensures Valid()
      ensures r == old(State()).ComMembro(login).saida
      ensures State() == old(State()).ComMembro(login).depois
    {
      if login in members {
        return Err(UsuarioJaMembro);
      }
      members := Insert(members, login);
      r := Ok(());
    }

    function GetDescription(): (r: string)
      reads this
      ensures r == State().descricao
    {
      description
    }

    function GetOwner(): (r: string)
      reads this
      ensures r == State().dono
    {
      owner
    }

    /** The members in join order: the owner first, each member once. */
    function GetMembers(): (r: seq<string>)
      reads this
      requires Valid()
      ensures r == State().membros
      ensures NoDup(r) && |r| > 0 && r[0] == owner
      ensures forall x :: x in r <==> x in State().membros
    {
      members
    }

    /** The Portuguese-named copy of getMembers: the same list. */
    function GetMembros(): (r: seq<string>)
      reads this
      requires Valid()
      ensures r == GetMembers()
    {
      members
    }
  }
}
