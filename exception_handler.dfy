/**
 * ExceptionHandler: the JAX-RS exception mapper. It walks the cause chain to
 * its root and chooses the HTTP status from the root's class alone.
 */
module ExceptionHandler {
  import opened Wrappers
  import opened Excecoes

  /** The cause chain e, e.getCause(), e.getCause().getCause(), ... up to the first null. */
  function Cadeia(t: Throwable): (c: seq<Throwable>)
    ensures |c| >= 1 && c[0] == t
    decreases t
  {
    match t.cause
    case None => [t]
    case Some(c) => [t] + Cadeia(c)
  }

  /** The root cause: the last element of the chain, which has no cause of its own. */
  function CausaRaiz(t: Throwable): (r: Throwable)
    ensures r.cause.None?
    ensures r == Cadeia(t)[|Cadeia(t)| - 1]
    decreases t
  {
    match t.cause
    case None => t
    case Some(c) => CausaRaiz(c)
  }

  /** getCause: follows getCause() until it returns null. */
  method GetCause(e: Throwable) returns (r: Throwable)
    ensures r == CausaRaiz(e)
    ensures r.cause.None?
  {
    r := e;
    while r.cause.Some?
      invariant CausaRaiz(r) == CausaRaiz(e)
      decreases r
    {
      r := r.cause.value;
    }
  }

  /** The body of the error response: ErroDetailDto, or ErroDetailCamposDto when the
      list of fields with problems is present. The timestamp is left out. */
  datatype Corpo = Corpo(status: int, message: Option<string>, camposComProblemas: Option<seq<string>>)

  datatype Resposta = Resposta(status: int, corpo: Corpo)

  /** The root classes toResponse recognises. */
  predicate Reconhecida(t: Tipo) {
    IsIllegalArgument(t) || t.Validador? || t.ClienteJaCadastrado? || t.ClienteNaoEncontrado?
  }

  /** The status toResponse answers with, for a root cause of class t. */
  function StatusPara(t: Tipo): (status: int)
    ensures status == 500 <==> !Reconhecida(t)
    ensures IsIllegalArgument(t) ==> status == 400
    ensures t.Validador? ==> status == CODIGO_HTTP_VALIDADOR
    ensures t.ClienteJaCadastrado? ==> status == 409
    ensures t.ClienteNaoEncontrado? ==> status == 404
  {
    if IsIllegalArgument(t) then 400
    else if t.Validador? then CODIGO_HTTP_VALIDADOR
    else if t.ClienteJaCadastrado? then CODIGO_HTTP_JA_CADASTRADO
    else if t.ClienteNaoEncontrado? then STATUS_NAO_ENCONTRADO
    else 500
  }

  /** toResponse */
  method ToResponse(e: Throwable) returns (r: Resposta)
    ensures r.status == StatusPara(CausaRaiz(e).tipo)
    ensures r.corpo.status == r.status
    ensures Reconhecida(CausaRaiz(e).tipo) ==> r.corpo.message == CausaRaiz(e).message
    ensures !Reconhecida(CausaRaiz(e).tipo) ==> r.corpo.message == e.message
    ensures CausaRaiz(e).tipo.Validador? ==> r.corpo.camposComProblemas == Some(CausaRaiz(e).tipo.camposComProblemas)
    ensures !CausaRaiz(e).tipo.Validador? ==> r.corpo.camposComProblemas == None
  {
    var cause := GetCause(e);
    if IsIllegalArgument(cause.tipo) {
      r := Resposta(400, Corpo(400, cause.message, None));
    } else if cause.tipo.Validador? {
      r := Resposta(CODIGO_HTTP_VALIDADOR,
                    Corpo(CODIGO_HTTP_VALIDADOR, cause.message, Some(cause.tipo.camposComProblemas)));
    } else if cause.tipo.ClienteJaCadastrado? {
      r := Resposta(CODIGO_HTTP_JA_CADASTRADO, Corpo(CODIGO_HTTP_JA_CADASTRADO, cause.message, None));
    } else if cause.tipo.ClienteNaoEncontrado? {
      r := Resposta(STATUS_NAO_ENCONTRADO, Corpo(STATUS_NAO_ENCONTRADO, cause.message, None));
    } else {
      r := Resposta(500, Corpo(500, e.message, None));
    }
  }

  /** e wrapped in one RuntimeException per message, the last message outermost. */
  function Embrulha(mensagens: seq<string>, e: Throwable): Throwable
  {
    if mensagens == [] then e
    else RuntimeException(mensagens[|mensagens| - 1], Embrulha(mensagens[..|mensagens| - 1], e))
  }

  /** Wrapping in any number of RuntimeExceptions keeps the root cause. */
  lemma {:induction false} EmbrulhaPreservaCausaRaiz(mensagens: seq<string>, e: Throwable)
    ensures CausaRaiz(Embrulha(mensagens, e)) == CausaRaiz(e)
    decreases |mensagens|
  {
    if mensagens != [] {
      EmbrulhaPreservaCausaRaiz(mensagens[..|mensagens| - 1], e);
    }
  }

  /** ... and therefore the HTTP status. */
  lemma EmbrulhaPreservaStatus(mensagens: seq<string>, e: Throwable)
    ensures StatusPara(CausaRaiz(Embrulha(mensagens, e)).tipo) == StatusPara(CausaRaiz(e).tipo)
  {
    EmbrulhaPreservaCausaRaiz(mensagens, e);
  }

  /** A not-found error however deeply wrapped is answered with 404. */
  lemma NaoEncontradoEmbrulhadoDa404(mensagens: seq<string>)
    ensures StatusPara(CausaRaiz(Embrulha(mensagens, ClienteNaoEncontradoException())).tipo) == 404
  {
    EmbrulhaPreservaCausaRaiz(mensagens, ClienteNaoEncontradoException());
  }
}
