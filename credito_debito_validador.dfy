/**
 * CreditoDebitoValidador: the same collect-then-throw pattern for a credit or
 * debit request. The CPF/CNPJ and account-type checks are the same rules as
 * at registration and reuse them.
 */
module CreditoDebitoValidador {
  import opened Wrappers
  import opened Textos
  import opened Excecoes
  import opened Modelo
  import DataUtil
  import CadastroClienteValidador

  /** The amount rule: a decimal BigDecimal accepts that is strictly positive. */
  predicate ValorValido(valor: Option<string>) {
    valor.Some? && ParseDecimal(valor.value).Some? && ParseDecimal(valor.value).value > 0.0
  }

  /** validarValor: null or empty is missing; unreadable, zero or negative is invalid. */
  function ProblemaValor(valor: Option<string>): (r: seq<string>)
    ensures |r| <= 1
    ensures r == [] <==> ValorValido(valor)
    ensures r == ["creditoDebito.valor.obrigatorio"] <==> valor.None? || valor.value == ""
    ensures valor.Some? && valor.value != "" && !ValorValido(valor) ==> r == ["creditoDebito.valor.invalido"]
  {
    if valor.None? || valor.value == "" then ["creditoDebito.valor.obrigatorio"]
    else
      match ParseDecimal(valor.value)
      case None => ["creditoDebito.valor.invalido"]
      case Some(v) => if v <= 0.0 then ["creditoDebito.valor.invalido"] else []
  }

  /** validarDataOperacao: null or blank is missing; otherwise invalid exactly when
      isDataOperacaoValida says so. */
  function ProblemaDataOperacao(dataOperacao: Option<string>): (r: seq<string>)
    ensures |r| <= 1
    ensures r == [] <==> DataUtil.IsDataOperacaoValida(dataOperacao)
    ensures r == ["creditoDebito.dataoperacao.obrigatorio"] <==> dataOperacao.None? || IsBlank(dataOperacao.value)
    ensures dataOperacao.Some? && !IsBlank(dataOperacao.value) && !DataUtil.IsDataOperacaoValida(dataOperacao) ==>
              r == ["creditoDebito.dataoperacao.invalida"]
  {
    if dataOperacao.None? then ["creditoDebito.dataoperacao.obrigatorio"]
    else
      assert DataUtil.DataValida(dataOperacao.value) ==> !IsWhitespace(dataOperacao.value[2]);
      if IsBlank(dataOperacao.value) then ["creditoDebito.dataoperacao.obrigatorio"]
      else if !DataUtil.IsDataOperacaoValida(dataOperacao) then ["creditoDebito.dataoperacao.invalida"]
      else []
  }

  /** validarTipoOperacao: null is missing; anything but CREDITO or DEBITO is invalid. */
  function ProblemaTipoOperacao(tipoOperacao: Option<TipoOperacao>): (r: seq<string>)
    ensures |r| <= 1
    ensures r == [] <==> tipoOperacao == Some(CREDITO) || tipoOperacao == Some(DEBITO)
    ensures tipoOperacao.None? ==> r == ["creditoDebito.tipooperacao.obrigatorio"]
    ensures tipoOperacao.Some? && tipoOperacao != Some(CREDITO) && tipoOperacao != Some(DEBITO) ==>
              r == ["creditoDebito.tipooperacao.invalido"]
  {
    if tipoOperacao.None? then ["creditoDebito.tipooperacao.obrigatorio"]
    else if !(tipoOperacao.value == CREDITO || tipoOperacao.value == DEBITO) then
      ["creditoDebito.tipooperacao.invalido"]
    else []
  }

  /** Every field of a credit/debit request as validar wants it. */
  predicate OperacaoValida(dto: CreditoDebitoDto) {
    && CadastroClienteValidador.CpfCnpjValido(dto.cpfCnpj)
    && ValorValido(dto.valor)
    && CadastroClienteValidador.TipoContaValido(dto.tipoConta)
    && DataUtil.IsDataOperacaoValida(dto.dataOperacao)
    && (dto.tipoOperacao == Some(CREDITO) || dto.tipoOperacao == Some(DEBITO))
  }

  /** The collected messages, in the order validar runs the checks: at most one per field. */
  function Problemas(dto: CreditoDebitoDto): (r: seq<string>)
    ensures |r| <= 5
    ensures r == [] <==> OperacaoValida(dto)
  {
    CadastroClienteValidador.ProblemaCpfCnpj(dto.cpfCnpj) + ProblemaValor(dto.valor)
      + CadastroClienteValidador.ProblemaTipoConta(dto.tipoConta)
      + ProblemaDataOperacao(dto.dataOperacao) + ProblemaTipoOperacao(dto.tipoOperacao)
  }

  /** validar: throws ValidadorException carrying every message exactly when there is one. */
  method Validar(dto: CreditoDebitoDto) returns (r: Outcome<Throwable>)
    ensures r.Pass? <==> OperacaoValida(dto)
    ensures r.Fail? ==> r.error == ValidadorException(Problemas(dto)) && Problemas(dto) != []
  {
    var campos: seq<string> := [];
    campos := campos + CadastroClienteValidador.ProblemaCpfCnpj(dto.cpfCnpj);
    assert campos == CadastroClienteValidador.ProblemaCpfCnpj(dto.cpfCnpj);
    campos := campos + ProblemaValor(dto.valor);
    campos := campos + CadastroClienteValidador.ProblemaTipoConta(dto.tipoConta);
    campos := campos + ProblemaDataOperacao(dto.dataOperacao);
    campos := campos + ProblemaTipoOperacao(dto.tipoOperacao);
    assert campos == Problemas(dto);
    if campos != [] {
      r := Fail(ValidadorException(campos));
    } else {
      r := Pass;
    }
  }
}
