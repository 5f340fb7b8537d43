/**
 * The exceptions the account service throws and inspects, as one Throwable
 * datatype: the class of the exception, its message (null allowed) and its
 * cause (null allowed), so that a chain of wrapped exceptions is a value.
 */
module Excecoes {
  import opened Wrappers

  datatype Tipo =
    | IllegalArgument
    | NumberFormat            // a subclass of IllegalArgumentException
    | StringIndexOutOfBounds
    | NullPointer
    | Runtime                 // a plain RuntimeException
    | Validador(camposComProblemas: seq<string>)
    | ClienteJaCadastrado
    | ClienteNaoEncontrado
    | SaldoNaoSuficiente
    | ForaDoLimite

  datatype Throwable = Throwable(tipo: Tipo, message: Option<string>, cause: Option<Throwable>)

  /** `instanceof IllegalArgumentException`, which NumberFormatException also satisfies. */
  predicate IsIllegalArgument(t: Tipo) {
    t.IllegalArgument? || t.NumberFormat?
  }

  /** ValidadorException.codigoHTTP: BAD_REQUEST, never reassigned. */
  const CODIGO_HTTP_VALIDADOR: int := 400
  /** ClienteJaCadastradoException.codigoHTTP: CONFLICT. */
  const CODIGO_HTTP_JA_CADASTRADO: int := 409
  /** ClienteNaoEncontradoException.status: NOT_FOUND. */
  const STATUS_NAO_ENCONTRADO: int := 404

  function ValidadorException(campos: seq<string>): Throwable {
    Throwable(Validador(campos), Some("Campo(s) com problema(s)"), None)
  }

  function ClienteJaCadastradoException(): Throwable {
    Throwable(ClienteJaCadastrado, Some("Cliente já cadastrado!"), None)
  }

  function ClienteNaoEncontradoException(): Throwable {
    Throwable(ClienteNaoEncontrado, Some("Cliente não encontrado"), None)
  }

  function SaldoNaoSuficienteException(message: string): Throwable {
    Throwable(SaldoNaoSuficiente, Some(message), None)
  }

  function ForaDoLimiteException(message: string): Throwable {
    Throwable(ForaDoLimite, Some(message), None)
  }

  /** new RuntimeException(message, cause) */
  function RuntimeException(message: string, cause: Throwable): Throwable {
    Throwable(Runtime, Some(message), Some(cause))
  }

  /** new RuntimeException(message) */
  function RuntimeExceptionSemCausa(message: string): Throwable {
    Throwable(Runtime, Some(message), None)
  }

  /** What Integer.parseInt throws for an unreadable input. */
  function NumberFormatException(input: string): Throwable {
    Throwable(NumberFormat, Some("For input string: \"" + input + "\""), None)
  }

  /** What String.substring throws for an out-of-range slice. */
  function StringIndexOutOfBoundsException(): Throwable {
    Throwable(StringIndexOutOfBounds, None, None)
  }

  /** What the entity manager's find throws for a null primary key. */
  function IllegalArgumentException(): Throwable {
    Throwable(IllegalArgument, None, None)
  }

  /** What dereferencing or unboxing a null reference throws. */
  function NullPointerException(): Throwable {
    Throwable(NullPointer, None, None)
  }
}
