/** Perfil: a user's open key/value profile. */
module Perfis {
  import opened Erros

  /** getAtributo on a profile whose attributes are `atributos`: the value, or
      AtributoNaoPreenchido for a key never set. */
  function Atributo(atributos: map<string, string>, chave: string): (r: Result<string>)
    ensures r.Ok? <==> chave in atributos
    ensures r.Ok? ==> r.value == atributos[chave]
    ensures r.Err? ==> r.erro == AtributoNaoPreenchido
  {
    if chave in atributos then Ok(atributos[chave]) else Err(AtributoNaoPreenchido)
  }

  class Perfil {
    var atributos: map<string, string>

    /** A new profile has no attributes. */
    constructor ()
      ensures atributos == map[]
    {
      atributos := map[];
    }

    function GetAtributo(chave: string): Result<string>
      reads this
    {
      Atributo(atributos, chave)
    }

    /** Sets or overwrites one attribute. */
    method SetAtributo(chave: string, valor: string)
      modifies this
      ensures atributos == old(atributos)[chave := valor]
    {
      atributos := atributos[chave := valor];
    }
  }

  /** After setAtributo(k, v), getAtributo(k) is v, and every other key reads as before. */
  lemma SetEntaoGet(atributos: map<string, string>, chave: string, valor: string, outra: string)
    ensures Atributo(atributos[chave := valor], chave) == Ok(valor)
    ensures outra != chave ==> Atributo(atributos[chave := valor], outra) == Atributo(atributos, outra)
  {
  }
}
