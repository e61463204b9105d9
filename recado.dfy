/** Recado: a private message, an immutable (sender, text) pair. */
module Recados {

  /** Both fields are final in the source; a datatype value never changes. */
  datatype Recado = Recado(remetente: string, mensagem: string) {

    /** The login of the sender given at construction. */
    function GetRemetente(): string {
      remetente
    }

    /** The message's text alone: the sender is not part of it. */
    function ToString(): string {
      mensagem
    }
  }

  /** What is read back from a message is what was put in at construction. */
  lemma Construcao(remetente: string, mensagem: string)
    ensures Recado(remetente, mensagem).GetRemetente() == remetente
    ensures Recado(remetente, mensagem).ToString() == mensagem
  {
  }

  /** The rendering ignores the sender: two messages with the same text read the same, and
      two different messages that read the same differ only in the sender. */
  lemma ToStringIgnoraRemetente(r1: Recado, r2: Recado)
    ensures r1.ToString() == r2.ToString() <==> r1.mensagem == r2.mensagem
    ensures r1.ToString() == r2.ToString() && r1 != r2 ==> r1.remetente != r2.remetente
  {
  }
}
