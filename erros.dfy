/** The failures of the Jackut core, one constructor per exception class, and the
    result types that carry them in place of Java's exceptions. */
module Erros {

  /** One constructor per exception class the core throws. Exceptions built with a
      caller-supplied message keep that message as a field. */
  datatype Erro =
    | UsuarioJaExiste
    | UsuarioNaoEncontrado
    | LoginInvalido
    | SenhaInvalida
    | LoginOuSenhaInvalidos
    | AutoAmizade
    | AmigoJaAdicionado(mensagem: string)
    | AutoRelacao(mensagem: string)
    | Inimigo(nomeInimigo: string)
    | RelacaoExistente(mensagem: string)
    | AutoMensagem(mensagem: string)
    | SemRecados
    | AtributoNaoPreenchido
    | ComunidadeJaExiste
    | ComunidadeNaoEncontrada
    | UsuarioJaMembro
      /** The IllegalArgumentException thrown by the session manager on a blank login. */
    | LoginInvalidoParaSessao
  {
    /** The text the exception carries (its getMessage()). */
    function Mensagem(): string {
      match this
      case UsuarioJaExiste => "Conta com esse nome já existe."
      case UsuarioNaoEncontrado => "Usuário não cadastrado."
      case LoginInvalido => "Login inválido."
      case SenhaInvalida => "Senha inválida."
      case LoginOuSenhaInvalidos => "Login ou senha inválidos."
      case AutoAmizade => "Usuário não pode adicionar a si mesmo como amigo."
      case AmigoJaAdicionado(m) => m
      case AutoRelacao(m) => m
      case Inimigo(nome) => "Função inválida: " + nome + " é seu inimigo."
      case RelacaoExistente(m) => m
      case AutoMensagem(m) => m
      case SemRecados => "Não há recados."
      case AtributoNaoPreenchido => "Atributo não preenchido."
      case ComunidadeJaExiste => "Comunidade com esse nome já existe."
      case ComunidadeNaoEncontrada => "Comunidade não existe."
      case UsuarioJaMembro => "Usuario já faz parte dessa comunidade."
      case LoginInvalidoParaSessao => "Login inválido para criação de sessão"
    }
  }

  /** A value, or the exception that was thrown instead. */
  datatype Result<+T> = Ok(value: T) | Err(erro: Erro) {
    predicate IsFailure() { Err? }

    function PropagateFailure<U>(): Result<U>
      requires Err?
    {
      Err(erro)
    }

    function Extract(): T
      requires Ok?
    {
      value
    }
  }

  /** What a state-changing operation does: the outcome it reports and the state it
      leaves behind. The two are separate because an operation of the source may throw
      after it has already changed something. */
  datatype Passo<+T, +S> = Passo(saida: Result<T>, depois: S)
}
