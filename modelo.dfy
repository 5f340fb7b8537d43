/**
 * The plain data of the account service: the enumerations, the request DTOs
 * and the Cliente record. A Java field that may be null is an Option; a
 * BigDecimal is an exact real.
 *
 * The enum declarations themselves are not part of this model. Each enum
 * keeps the constants the code names and one more case standing for any other
 * constant it may declare, so that the validators' "invalid" branches remain
 * reachable.
 */
module Modelo {
  import opened Wrappers

  datatype TipoConta = CACC | SVGS | OutroTipoConta(nome: string)
  datatype IspbParticipante = CX | IF | OutroIspb(nome: string)
  datatype SituacaoConta = ATIVA | OutraSituacao(nome: string)
  datatype TipoOperacao = CREDITO | DEBITO | OutraOperacao(nome: string)

  /** Registration request (CadastroClienteDto). */
  datatype CadastroClienteDto = CadastroClienteDto(
    nome: Option<string>,
    cpfCnpj: Option<string>,
    saldo: Option<string>,
    agencia: Option<string>,
    conta: Option<int>,
    tipoConta: Option<TipoConta>,
    operacao: Option<int>,
    ispbParticipante: Option<IspbParticipante>,
    situacaoConta: Option<SituacaoConta>,
    limitePixDiurno: Option<real>,
    limitePixNoturno: Option<real>,
    limitePixRedeSegura: Option<real>)

  /** Credit/debit request (CreditoDebitoDto), with the secure-network flag its use site reads. */
  datatype CreditoDebitoDto = CreditoDebitoDto(
    tipoOperacao: Option<TipoOperacao>,
    dataOperacao: Option<string>,
    cpfCnpj: Option<string>,
    tipoConta: Option<TipoConta>,
    valor: Option<string>,
    conectadoEmRedeSegura: bool)

  /** Direct credit request of ClienteService (CreditaDto). */
  datatype CreditaDto = CreditaDto(cpfCnpj: string, tipoConta: TipoConta, valorCredito: real)

  /** Direct debit request of ClienteService (DebitoDto). */
  datatype DebitoDto = DebitoDto(cpfCnpj: string, tipoConta: TipoConta, valorDebito: real)

  /** A stored account, with the fields its use sites read and write. idConta is
      assigned by the store on insertion. */
  datatype Cliente = Cliente(
    idConta: nat,
    nome: string,
    cpfCnpj: string,
    saldo: real,
    agencia: string,
    conta: int,
    tipoConta: TipoConta,
    operacao: int,
    ispbParticipante: IspbParticipante,
    situacaoConta: Option<SituacaoConta>,
    limitePixDiurno: Option<real>,
    limitePixNoturno: Option<real>,
    limitePixRedeSegura: Option<real>)
}
