/**
 * CadastroClienteValidador: each field check appends zero or one message key
 * to one shared list, in a fixed order, and validar throws ValidadorException
 * with the whole list exactly when the list is non-empty. Messages are their
 * resource-bundle keys.
 */
module CadastroClienteValidador {
  import opened Wrappers
  import opened Textos
  import opened Excecoes
  import opened Modelo

  // ----- the single-field checks: each yields the message it appends, if any -----

  /** validarNome and validarAgencia: a text field that is null or blank is missing,
      and gets the field's "obrigatorio" key. */
  function ProblemaTextoObrigatorio(texto: Option<string>, obrigatorio: string): (r: seq<string>)
    ensures r == [] <==> texto.Some? && !IsBlank(texto.value)
    ensures r != [] ==> r == [obrigatorio]
  {
    if texto.None? || IsBlank(texto.value) then [obrigatorio] else []
  }

  /** validarOperacao and validarSituacaoConta: only null is refused, with the field's
      "obrigatorio" key. */
  function ProblemaPresente<T>(valor: Option<T>, obrigatorio: string): (r: seq<string>)
    ensures r == [] <==> valor.Some?
    ensures r != [] ==> r == [obrigatorio]
  {
    if valor.None? then [obrigatorio] else []
  }

  /** The CPF/CNPJ rule: exactly 11 or exactly 14 ASCII digits. */
  predicate CpfCnpjValido(cpfCnpj: Option<string>) {
    cpfCnpj.Some? && (|cpfCnpj.value| == 11 || |cpfCnpj.value| == 14) && AllDigits(cpfCnpj.value)
  }

  /** validarCpfCnpj: null or blank is missing; anything not matching \d{11}|\d{14} is invalid. */
  function ProblemaCpfCnpj(cpfCnpj: Option<string>): (r: seq<string>)
    ensures |r| <= 1
    ensures r == [] <==> CpfCnpjValido(cpfCnpj)
    ensures r == ["cliente.cpfcnpj.obrigatorio"] <==> cpfCnpj.None? || IsBlank(cpfCnpj.value)
    ensures cpfCnpj.Some? && !IsBlank(cpfCnpj.value) && !CpfCnpjValido(cpfCnpj) ==> r == ["cliente.cpfcnpj.invalido"]
  {
    if cpfCnpj.None? then ["cliente.cpfcnpj.obrigatorio"]
    else
      DigitsAreNotBlank(cpfCnpj.value);
      if IsBlank(cpfCnpj.value) then ["cliente.cpfcnpj.obrigatorio"]
      else if !((|cpfCnpj.value| == 11 || |cpfCnpj.value| == 14) && AllDigits(cpfCnpj.value)) then
        ["cliente.cpfcnpj.invalido"]
      else []
  }

  /** validarSaldo: null or empty is missing; what BigDecimal refuses is invalid; the sign is not checked. */
  function ProblemaSaldo(saldo: Option<string>): (r: seq<string>)
    ensures |r| <= 1
    ensures r == [] <==> saldo.Some? && ParseDecimal(saldo.value).Some?
    ensures saldo.None? || saldo.value == "" ==> r == ["cliente.saldo.obrigatorio"]
    ensures saldo.Some? && saldo.value != "" && ParseDecimal(saldo.value).None? ==> r == ["cliente.saldo.invalido"]
  {
    if saldo.None? || saldo.value == "" then ["cliente.saldo.obrigatorio"]
    else if ParseDecimal(saldo.value).None? then ["cliente.saldo.invalido"]
    else []
  }

  /** validarConta: null is missing, negative is invalid, zero and above pass. */
  function ProblemaConta(conta: Option<int>): (r: seq<string>)
    ensures |r| <= 1
    ensures r == [] <==> conta.Some? && conta.value >= 0
    ensures conta.None? ==> r == ["cliente.conta.obrigatorio"]
    ensures conta.Some? && conta.value < 0 ==> r == ["cliente.conta.invalido"]
  {
    if conta.None? then ["cliente.conta.obrigatorio"]
    else if conta.value < 0 then ["cliente.conta.invalido"]
    else []
  }

  predicate TipoContaValido(tipoConta: Option<TipoConta>) {
    tipoConta == Some(CACC) || tipoConta == Some(SVGS)
  }

  /** validarTipoConta: null is missing; anything but CACC or SVGS is invalid. */
  function ProblemaTipoConta(tipoConta: Option<TipoConta>): (r: seq<string>)
    ensures |r| <= 1
    ensures r == [] <==> TipoContaValido(tipoConta)
    ensures tipoConta.None? ==> r == ["cliente.tipoconta.obrigatorio"]
    ensures tipoConta.Some? && !TipoContaValido(tipoConta) ==> r == ["cliente.tipoconta.invalido"]
  {
    if tipoConta.None? then ["cliente.tipoconta.obrigatorio"]
    else if !(tipoConta.value == CACC || tipoConta.value == SVGS) then ["cliente.tipoconta.invalido"]
    else []
  }

  /** validarISPBParticipante: null is missing; anything but CX or IF is invalid. */
  function ProblemaIspbParticipante(ispb: Option<IspbParticipante>): (r: seq<string>)
    ensures |r| <= 1
    ensures r == [] <==> ispb == Some(CX) || ispb == Some(IF)
    ensures ispb.None? ==> r == ["cliente.ispbparticipante.obrigatorio"]
    ensures ispb.Some? && ispb != Some(CX) && ispb != Some(IF) ==> r == ["cliente.ispbparticipante.invalido"]
  {
    if ispb.None? then ["cliente.ispbparticipante.obrigatorio"]
    else if ispb.value != CX && ispb.value != IF then ["cliente.ispbparticipante.invalido"]
    else []
  }

  /** All three PIX limits present and non-negative, the secure-network one at least the other two. */
  predicate LimitesValidos(diurno: Option<real>, noturno: Option<real>, redeSegura: Option<real>) {
    && diurno.Some? && diurno.value >= 0.0
    && noturno.Some? && noturno.value >= 0.0
    && redeSegura.Some? && redeSegura.value >= 0.0
    && redeSegura.value >= diurno.value && redeSegura.value >= noturno.value
  }

  /** When validarLimites dereferences a null limit: BigDecimal.compareTo(null) at the
      day comparison, or at the night comparison once the day one has passed. */
  predicate LimitesLancamNulo(diurno: Option<real>, noturno: Option<real>, redeSegura: Option<real>) {
    && redeSegura.Some? && redeSegura.value >= 0.0
    && (diurno.None? || (redeSegura.value >= diurno.value && noturno.None?))
  }

  /** The first check of each PIX limit: null is missing, negative is invalid. */
  function ProblemaLimite(limite: Option<real>, obrigatorio: string, invalido: string): (r: seq<string>)
    ensures |r| <= 1
    ensures r == [] <==> limite.Some? && limite.value >= 0.0
    ensures limite.None? ==> r == [obrigatorio]
    ensures limite.Some? && limite.value < 0.0 ==> r == [invalido]
  {
    if limite.None? then [obrigatorio] else if limite.value < 0.0 then [invalido] else []
  }

  /** validarLimites: one message at most per limit, or the NullPointerException it throws. */
  function ProblemasLimites(diurno: Option<real>, noturno: Option<real>, redeSegura: Option<real>)
    : (r: Result<seq<string>, Throwable>)
    ensures r.Failure? <==> LimitesLancamNulo(diurno, noturno, redeSegura)
    ensures r.Failure? ==> r.error == NullPointerException()
    ensures r.Success? ==> |r.value| <= 3
    ensures r == Success([]) <==> LimitesValidos(diurno, noturno, redeSegura)
  {
    var campos := ProblemaLimite(diurno, "cliente.limitepixdiurno.obrigatorio", "cliente.limitepixdiurno.invalido")
      + ProblemaLimite(noturno, "cliente.limitepixnoturno.obrigatorio", "cliente.limitepixnoturno.invalido");
    if redeSegura.None? then Success(campos + ["cliente.limitepixredesegura.obrigatorio"])
    else if redeSegura.value < 0.0 then Success(campos + ["cliente.limitepixredesegura.invalido"])
    else if diurno.None? then Failure(NullPointerException())
    else if redeSegura.value < diurno.value then Success(campos + ["cliente.limitepixredesegura.invalido"])
    else if noturno.None? then Failure(NullPointerException())
    else if redeSegura.value < noturno.value then Success(campos + ["cliente.limitepixredesegura.invalido"])
    else Success(campos)
  }

  /** Every field of a registration request as validar wants it. */
  predicate CadastroValido(dto: CadastroClienteDto) {
    && dto.nome.Some? && !IsBlank(dto.nome.value)
    && CpfCnpjValido(dto.cpfCnpj)
    && dto.saldo.Some? && ParseDecimal(dto.saldo.value).Some?
    && dto.agencia.Some? && !IsBlank(dto.agencia.value)
    && dto.conta.Some? && dto.conta.value >= 0
    && TipoContaValido(dto.tipoConta)
    && dto.operacao.Some?
    && (dto.ispbParticipante == Some(CX) || dto.ispbParticipante == Some(IF))
    && dto.situacaoConta.Some?
    && LimitesValidos(dto.limitePixDiurno, dto.limitePixNoturno, dto.limitePixRedeSegura)
  }

  /** The messages of the nine single-field checks, in the order validar runs them. */
  function ProblemasCampos(dto: CadastroClienteDto): seq<string> {
    ProblemaTextoObrigatorio(dto.nome, "cliente.nome.obrigatorio") + ProblemaCpfCnpj(dto.cpfCnpj)
      + ProblemaSaldo(dto.saldo) + ProblemaTextoObrigatorio(dto.agencia, "cliente.agencia.obrigatorio")
      + ProblemaConta(dto.conta) + ProblemaTipoConta(dto.tipoConta)
      + ProblemaPresente(dto.operacao, "cliente.operacao.obrigatorio")
      + ProblemaIspbParticipante(dto.ispbParticipante)
      + ProblemaPresente(dto.situacaoConta, "cliente.situacaoconta.obrigatorio")
  }

  /** What validar does with a request: return normally, or throw. */
  function Resultado(dto: CadastroClienteDto): (r: Outcome<Throwable>)
    ensures r.Pass? <==> CadastroValido(dto)
    ensures r.Fail? ==> r.error == NullPointerException() || r.error.tipo.Validador?
    ensures r.Fail? && r.error.tipo.Validador? ==> 1 <= |r.error.tipo.camposComProblemas| <= 12
  {
    match ProblemasLimites(dto.limitePixDiurno, dto.limitePixNoturno, dto.limitePixRedeSegura)
    case Failure(e) => Fail(e)
    case Success(limites) =>
      var campos := ProblemasCampos(dto) + limites;
      if campos == [] then Pass else Fail(ValidadorException(campos))
  }

  /** validar */
  method Validar(dto: CadastroClienteDto) returns (r: Outcome<Throwable>)
    ensures r == Resultado(dto)
  {
    var campos: seq<string> := [];
    campos := campos + ProblemaTextoObrigatorio(dto.nome, "cliente.nome.obrigatorio");
    assert campos == ProblemaTextoObrigatorio(dto.nome, "cliente.nome.obrigatorio");
    campos := campos + ProblemaCpfCnpj(dto.cpfCnpj);
    campos := campos + ProblemaSaldo(dto.saldo);
    campos := campos + ProblemaTextoObrigatorio(dto.agencia, "cliente.agencia.obrigatorio");
    campos := campos + ProblemaConta(dto.conta);
    campos := campos + ProblemaTipoConta(dto.tipoConta);
    campos := campos + ProblemaPresente(dto.operacao, "cliente.operacao.obrigatorio");
    campos := campos + ProblemaIspbParticipante(dto.ispbParticipante);
    campos := campos + ProblemaPresente(dto.situacaoConta, "cliente.situacaoconta.obrigatorio");
    assert campos == ProblemasCampos(dto);
    var limites := ProblemasLimites(dto.limitePixDiurno, dto.limitePixNoturno, dto.limitePixRedeSegura);
    if limites.Failure? {
      return Fail(limites.error);
    }
    campos := campos + limites.value;
    if campos != [] {
      r := Fail(ValidadorException(campos));
    } else {
      r := Pass;
    }
  }

  /** A negative balance is accepted: only the decimal syntax of saldo is checked. */
  lemma SaldoNegativoAceito()
    ensures ProblemaSaldo(Some("-5")) == []
  {
    assert ParseDecimal("-5") == Some(-5.0) by {
      ParseDecimalIntToString(-5);
      assert IntToString(-5) == "-5";
    }
  }
}
