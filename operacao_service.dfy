/**
 * OperacaoService: a credit or debit request against a stored account. The
 * request is validated first; a credit needs an active account, a debit needs
 * an active account, then enough balance, then an amount within the PIX limit
 * that applies (secure network, night or day).
 */
module Operacoes {
  import opened Wrappers
  import opened Textos
  import opened Excecoes
  import opened Modelo
  import opened Clientes
  import DataUtil
  import CreditoDebitoValidador
  import CadastroClienteValidador
  import ExceptionHandler

  /** The night period of the PIX limit rule: before 06:00 or from 20:00 on. */
  predicate Noturno(hora: int) {
    hora < 6 || hora >= 20
  }

  /** saldoNaoSuficiente: the balance is below the amount. */
  predicate FaltaSaldo(c: Cliente, valor: real)
    ensures !FaltaSaldo(c, valor) <==> c.saldo - valor >= 0.0
  {
    c.saldo < valor
  }

  /** `limite.compareTo(valor) < 0` refuses; a null limit throws on the dereference. */
  function DentroDoLimite(limite: Option<real>, valor: real): (r: Result<bool, Throwable>)
    ensures r.Failure? <==> limite.None?
    ensures r.Failure? ==> r.error == NullPointerException()
    ensures r.Success? ==> (r.value <==> valor <= limite.value)
  {
    if limite.None? then Failure(NullPointerException())
    else Success(!(limite.value < valor))
  }

  /** isLimitePixPermitido: on a secure network the secure-network limit, otherwise the
      night or day limit chosen by the hour getHora reads. */
  function IsLimitePixPermitido(c: Cliente, dto: CreditoDebitoDto, valor: real): (r: Result<bool, Throwable>)
    ensures dto.conectadoEmRedeSegura ==>
              (r == Success(true) <==> c.limitePixRedeSegura.Some? && valor <= c.limitePixRedeSegura.value)
    ensures !dto.conectadoEmRedeSegura && r == Success(true) ==>
              || (c.limitePixNoturno.Some? && valor <= c.limitePixNoturno.value)
              || (c.limitePixDiurno.Some? && valor <= c.limitePixDiurno.value)
    ensures !dto.conectadoEmRedeSegura && dto.dataOperacao.None? ==> r == Failure(NullPointerException())
  {
    if dto.conectadoEmRedeSegura then DentroDoLimite(c.limitePixRedeSegura, valor)
    else if dto.dataOperacao.None? then Failure(NullPointerException())
    else
      match DataUtil.GetHora(dto.dataOperacao.value)
      case Failure(e) => Failure(e)
      case Success(hora) =>
        if Noturno(hora) then DentroDoLimite(c.limitePixNoturno, valor)
        else DentroDoLimite(c.limitePixDiurno, valor)
  }

  /** On a secure network only the secure-network limit matters: the date is never read. */
  lemma LimiteRedeSegura(c: Cliente, dto: CreditoDebitoDto, valor: real, outraData: Option<string>)
    requires dto.conectadoEmRedeSegura
    ensures IsLimitePixPermitido(c, dto, valor) == IsLimitePixPermitido(c, dto.(dataOperacao := outraData), valor)
    ensures IsLimitePixPermitido(c, dto, valor).Success? ==>
              (IsLimitePixPermitido(c, dto, valor).value <==> valor <= c.limitePixRedeSegura.value)
  {
  }

  /** Off a secure network, for a valid date with a four-digit year, the limit is the night one
      exactly when the HH field is below 6 or at least 20, and the day one otherwise. */
  lemma LimitePorHorario(c: Cliente, dto: CreditoDebitoDto, valor: real)
    requires !dto.conectadoEmRedeSegura
    requires DataUtil.IsDataOperacaoValida(dto.dataOperacao) && |dto.dataOperacao.value| == 19
    ensures var hora := DataUtil.CampoHora(dto.dataOperacao.value);
            IsLimitePixPermitido(c, dto, valor) ==
              DentroDoLimite(if hora < 6 || hora >= 20 then c.limitePixNoturno else c.limitePixDiurno, valor)
  {
    DataUtil.GetHoraAnoQuatroDigitos(dto.dataOperacao.value);
  }

  /** The account after the credit step of creditar, or what it throws inside its try. */
  function Credito(c: Cliente, valor: real): (r: Result<Cliente, Throwable>)
    ensures r.Success? <==> c.situacaoConta == Some(ATIVA)
    ensures r.Success? ==> r.value == c.(saldo := c.saldo + valor)
    ensures r.Failure? ==> r.error == RuntimeExceptionSemCausa("Cliente não está ativo")
  {
    if c.situacaoConta == Some(ATIVA) then Success(c.(saldo := c.saldo + valor))
    else Failure(RuntimeExceptionSemCausa("Cliente não está ativo"))
  }

  /** The account after the debit step of debitar, or what it throws. The checks run in the
      order active, balance, PIX limit, and a debit that goes through never leaves the
      balance negative. */
  function Debito(c: Cliente, dto: CreditoDebitoDto, valor: real): (r: Result<Cliente, Throwable>)
    ensures r.Success? <==> c.situacaoConta == Some(ATIVA) && !FaltaSaldo(c, valor)
                            && IsLimitePixPermitido(c, dto, valor) == Success(true)
    ensures r.Success? ==> r.value == c.(saldo := c.saldo - valor) && r.value.saldo >= 0.0
    ensures c.situacaoConta != Some(ATIVA) ==> r == Failure(RuntimeExceptionSemCausa("Cliente não está ativo"))
    ensures c.situacaoConta == Some(ATIVA) && FaltaSaldo(c, valor) ==>
              r == Failure(SaldoNaoSuficienteException("Saldo insuficiente"))
    ensures c.situacaoConta == Some(ATIVA) && !FaltaSaldo(c, valor)
              && IsLimitePixPermitido(c, dto, valor) == Success(false) ==>
              r == Failure(ForaDoLimiteException("Limite de PIX não permitido"))
    ensures c.situacaoConta == Some(ATIVA) && !FaltaSaldo(c, valor)
              && IsLimitePixPermitido(c, dto, valor).Failure? ==>
              r == Failure(IsLimitePixPermitido(c, dto, valor).error)
  {
    if c.situacaoConta != Some(ATIVA) then Failure(RuntimeExceptionSemCausa("Cliente não está ativo"))
    else if FaltaSaldo(c, valor) then Failure(SaldoNaoSuficienteException("Saldo insuficiente"))
    else
      match IsLimitePixPermitido(c, dto, valor)
      case Failure(e) => Failure(e)
      case Success(permitido) =>
        if permitido then Success(c.(saldo := c.saldo - valor))
        else Failure(ForaDoLimiteException("Limite de PIX não permitido"))
  }

  /** creditar on the store: what it throws (already wrapped by its own catch) and the new store. */
  function Creditado(cs: seq<Cliente>, cpfCnpj: string, tipoConta: TipoConta, valor: real)
    : (r: (Outcome<Throwable>, seq<Cliente>))
    ensures r.0.Fail? ==> r.1 == cs
  {
    match PrimeiroIndice(cs, cpfCnpj, tipoConta)
    case None => (Fail(RuntimeException("Cliente não encontrado", NaoEncontradoPorChave())), cs)
    case Some(i) =>
      match Credito(cs[i], valor)
      case Failure(e) => (Fail(RuntimeException("Cliente não encontrado", e)), cs)
      case Success(c) => (Pass, Atualizado(cs, c))
  }

  /** debitar on the store: what it throws (unwrapped, it has no catch) and the new store. */
  function Debitado(cs: seq<Cliente>, dto: CreditoDebitoDto, cpfCnpj: string, tipoConta: TipoConta, valor: real)
    : (r: (Outcome<Throwable>, seq<Cliente>))
    ensures r.0.Fail? ==> r.1 == cs
  {
    match PrimeiroIndice(cs, cpfCnpj, tipoConta)
    case None => (Fail(NaoEncontradoPorChave()), cs)
    case Some(i) =>
      match Debito(cs[i], dto, valor)
      case Failure(e) => (Fail(e), cs)
      case Success(c) => (Pass, Atualizado(cs, c))
  }

  /** A credit that goes through found an active account, and the new store is the old one
      with that account's balance raised by the amount. */
  lemma CreditadoBemSucedido(cs: seq<Cliente>, cpfCnpj: string, tipoConta: TipoConta, valor: real)
    requires Creditado(cs, cpfCnpj, tipoConta, valor).0.Pass?
    ensures PrimeiroIndice(cs, cpfCnpj, tipoConta).Some?
    ensures var i := PrimeiroIndice(cs, cpfCnpj, tipoConta).value;
            cs[i].situacaoConta == Some(ATIVA)
            && Creditado(cs, cpfCnpj, tipoConta, valor).1 == Atualizado(cs, cs[i].(saldo := cs[i].saldo + valor))
  {
    var i := PrimeiroIndice(cs, cpfCnpj, tipoConta).value;
    var novo := cs[i].(saldo := cs[i].saldo + valor);
    assert Credito(cs[i], valor) == Success(novo);
    assert Creditado(cs, cpfCnpj, tipoConta, valor) == (Pass, Atualizado(cs, novo));
  }

  /** A debit that goes through found an active account with enough balance and a PIX limit
      that allows the amount, and the new store is the old one with that account's balance
      lowered by the amount. */
  lemma DebitadoBemSucedido(cs: seq<Cliente>, dto: CreditoDebitoDto, cpfCnpj: string, tipoConta: TipoConta, valor: real)
    requires Debitado(cs, dto, cpfCnpj, tipoConta, valor).0.Pass?
    ensures PrimeiroIndice(cs, cpfCnpj, tipoConta).Some?
    ensures var i := PrimeiroIndice(cs, cpfCnpj, tipoConta).value;
            && cs[i].situacaoConta == Some(ATIVA) && cs[i].saldo - valor >= 0.0
            && IsLimitePixPermitido(cs[i], dto, valor) == Success(true)
            && Debitado(cs, dto, cpfCnpj, tipoConta, valor).1 == Atualizado(cs, cs[i].(saldo := cs[i].saldo - valor))
            && (IdsDistintos(cs) ==>
                  Debitado(cs, dto, cpfCnpj, tipoConta, valor).1 == cs[i := cs[i].(saldo := cs[i].saldo - valor)])
  {
    var i := PrimeiroIndice(cs, cpfCnpj, tipoConta).value;
    var novo := cs[i].(saldo := cs[i].saldo - valor);
    assert Debito(cs[i], dto, valor) == Success(novo);
    assert Debitado(cs, dto, cpfCnpj, tipoConta, valor) == (Pass, Atualizado(cs, novo));
    if IdsDistintos(cs) {
      AtualizadoSubstitui(cs, i, novo);
    }
  }

  /** The try block of executar for a valid request: the credit or debit step, with whatever
      it throws wrapped once more. Any failure leaves every account as it was. */
  function Despachado(cs: seq<Cliente>, dto: CreditoDebitoDto, valor: real): (r: (Outcome<Throwable>, seq<Cliente>))
    requires dto.cpfCnpj.Some? && dto.tipoConta.Some?
    ensures r.0.Fail? ==> r.1 == cs && r.0.error.cause.Some? && r.0.error.message == Some("Erro ao executar operação")
    ensures |r.1| == |cs|
  {
    var passo :=
      if dto.tipoOperacao == Some(CREDITO) then Creditado(cs, dto.cpfCnpj.value, dto.tipoConta.value, valor)
      else if dto.tipoOperacao == Some(DEBITO) then Debitado(cs, dto, dto.cpfCnpj.value, dto.tipoConta.value, valor)
      else (Pass, cs);
    match passo.0
    case Pass => passo
    case Fail(e) => (Fail(RuntimeException("Erro ao executar operação", e)), cs)
  }

  /** executar on the store: what it throws and the new store. Validation comes first: an invalid
      request throws the validator's exception and touches no account. */
  function Executado(cs: seq<Cliente>, dto: CreditoDebitoDto): (r: (Outcome<Throwable>, seq<Cliente>))
    ensures r.0.Fail? ==> r.1 == cs
    ensures !CreditoDebitoValidador.OperacaoValida(dto) ==>
              r == (Fail(ValidadorException(CreditoDebitoValidador.Problemas(dto))), cs)
    ensures CreditoDebitoValidador.OperacaoValida(dto) ==>
              r == Despachado(cs, dto, ParseDecimal(dto.valor.value).value)
  {
    if !CreditoDebitoValidador.OperacaoValida(dto) then
      (Fail(ValidadorException(CreditoDebitoValidador.Problemas(dto))), cs)
    else
      Despachado(cs, dto, ParseDecimal(dto.valor.value).value)
  }

  /** The try block of executar succeeds exactly when its credit or debit step does, and then
      leaves the store that step leaves. */
  lemma DespachadoSegueOPasso(cs: seq<Cliente>, dto: CreditoDebitoDto, valor: real)
    requires dto.cpfCnpj.Some? && dto.tipoConta.Some?
    ensures dto.tipoOperacao == Some(CREDITO) ==>
              var passo := Creditado(cs, dto.cpfCnpj.value, dto.tipoConta.value, valor);
              (Despachado(cs, dto, valor).0.Pass? <==> passo.0.Pass?)
              && (passo.0.Pass? ==> Despachado(cs, dto, valor) == passo)
    ensures dto.tipoOperacao == Some(DEBITO) ==>
              var passo := Debitado(cs, dto, dto.cpfCnpj.value, dto.tipoConta.value, valor);
              (Despachado(cs, dto, valor).0.Pass? <==> passo.0.Pass?)
              && (passo.0.Pass? ==> Despachado(cs, dto, valor) == passo)
  {
  }

  /** A credit on an active account adds the amount to that account's balance and changes
      nothing else. */
  lemma CreditoEmContaAtiva(cs: seq<Cliente>, dto: CreditoDebitoDto, valor: real, i: nat)
    requires IdsDistintos(cs)
    requires dto.tipoOperacao == Some(CREDITO) && dto.cpfCnpj.Some? && dto.tipoConta.Some?
    requires PrimeiroIndice(cs, dto.cpfCnpj.value, dto.tipoConta.value) == Some(i)
    requires cs[i].situacaoConta == Some(ATIVA)
    ensures Despachado(cs, dto, valor) == (Pass, cs[i := cs[i].(saldo := cs[i].saldo + valor)])
  {
    var novo := cs[i].(saldo := cs[i].saldo + valor);
    assert Credito(cs[i], valor) == Success(novo);
    assert Creditado(cs, dto.cpfCnpj.value, dto.tipoConta.value, valor) == (Pass, Atualizado(cs, novo));
    DespachadoSegueOPasso(cs, dto, valor);
    AtualizadoSubstitui(cs, i, novo);
  }

  /** A credit or debit on an account that is not active fails and changes no account. */
  lemma ContaInativaNaoOpera(cs: seq<Cliente>, dto: CreditoDebitoDto, valor: real, i: nat)
    requires dto.tipoOperacao == Some(CREDITO) || dto.tipoOperacao == Some(DEBITO)
    requires dto.cpfCnpj.Some? && dto.tipoConta.Some?
    requires PrimeiroIndice(cs, dto.cpfCnpj.value, dto.tipoConta.value) == Some(i)
    requires cs[i].situacaoConta != Some(ATIVA)
    ensures Despachado(cs, dto, valor).0.Fail? && Despachado(cs, dto, valor).1 == cs
    ensures ExceptionHandler.CausaRaiz(Despachado(cs, dto, valor).0.error) == RuntimeExceptionSemCausa("Cliente não está ativo")
  {
    var e := Despachado(cs, dto, valor).0.error;
    var inativa := RuntimeExceptionSemCausa("Cliente não está ativo");
    if dto.tipoOperacao == Some(CREDITO) {
      assert e == RuntimeException("Erro ao executar operação", RuntimeException("Cliente não encontrado", inativa));
      assert ExceptionHandler.CausaRaiz(RuntimeException("Cliente não encontrado", inativa)) == inativa;
    } else {
      assert e == RuntimeException("Erro ao executar operação", inativa);
    }
  }

  /** A debit that goes through takes the amount from the matched account only, and leaves
      its balance non-negative. */
  lemma DebitoBemSucedido(cs: seq<Cliente>, dto: CreditoDebitoDto, valor: real)
    requires IdsDistintos(cs)
    requires dto.tipoOperacao == Some(DEBITO) && dto.cpfCnpj.Some? && dto.tipoConta.Some?
    requires Despachado(cs, dto, valor).0.Pass?
    ensures PrimeiroIndice(cs, dto.cpfCnpj.value, dto.tipoConta.value).Some?
    ensures var i := PrimeiroIndice(cs, dto.cpfCnpj.value, dto.tipoConta.value).value;
            var novo := cs[i].saldo - valor;
            novo >= 0.0 && Despachado(cs, dto, valor).1 == cs[i := cs[i].(saldo := novo)]
  {
    DespachadoSegueOPasso(cs, dto, valor);
    DebitadoBemSucedido(cs, dto, dto.cpfCnpj.value, dto.tipoConta.value, valor);
    var i := PrimeiroIndice(cs, dto.cpfCnpj.value, dto.tipoConta.value).value;
    assert cs[i].saldo - valor >= 0.0;
    assert Despachado(cs, dto, valor) == Debitado(cs, dto, dto.cpfCnpj.value, dto.tipoConta.value, valor);
  }

  /** A request for an account that does not exist fails with the not-found error at the root
      of its cause chain, which the exception mapper turns into 404, for a credit and a debit
      alike. */
  lemma NaoEncontradoDa404(cs: seq<Cliente>, dto: CreditoDebitoDto, valor: real)
    requires dto.tipoOperacao == Some(CREDITO) || dto.tipoOperacao == Some(DEBITO)
    requires dto.cpfCnpj.Some? && dto.tipoConta.Some?
    requires PrimeiroIndice(cs, dto.cpfCnpj.value, dto.tipoConta.value).None?
    ensures Despachado(cs, dto, valor).0.Fail?
    ensures ExceptionHandler.CausaRaiz(Despachado(cs, dto, valor).0.error) == ClienteNaoEncontradoException()
    ensures ExceptionHandler.StatusPara(ExceptionHandler.CausaRaiz(Despachado(cs, dto, valor).0.error).tipo) == 404
  {
    var e := Despachado(cs, dto, valor).0.error;
    var naoEncontrado := ClienteNaoEncontradoException();
    assert ExceptionHandler.CausaRaiz(NaoEncontradoPorChave()) == naoEncontrado;
    if dto.tipoOperacao == Some(CREDITO) {
      assert e == RuntimeException("Erro ao executar operação",
                                   RuntimeException("Cliente não encontrado", NaoEncontradoPorChave()));
      assert ExceptionHandler.CausaRaiz(RuntimeException("Cliente não encontrado", NaoEncontradoPorChave())) == naoEncontrado;
    } else {
      assert e == RuntimeException("Erro ao executar operação", NaoEncontradoPorChave());
    }
  }

  /** An insufficient balance is reported before the PIX limit is looked at, and the exception
      mapper does not recognise it: it becomes a 500. */
  lemma SaldoInsuficienteDa500(cs: seq<Cliente>, dto: CreditoDebitoDto, valor: real, i: nat)
    requires dto.tipoOperacao == Some(DEBITO) && dto.cpfCnpj.Some? && dto.tipoConta.Some?
    requires PrimeiroIndice(cs, dto.cpfCnpj.value, dto.tipoConta.value) == Some(i)
    requires cs[i].situacaoConta == Some(ATIVA) && cs[i].saldo < valor
    ensures Despachado(cs, dto, valor) ==
              (Fail(RuntimeException("Erro ao executar operação", SaldoNaoSuficienteException("Saldo insuficiente"))), cs)
    ensures ExceptionHandler.StatusPara(ExceptionHandler.CausaRaiz(Despachado(cs, dto, valor).0.error).tipo) == 500
  {
    var saldo := SaldoNaoSuficienteException("Saldo insuficiente");
    assert Debito(cs[i], dto, valor) == Failure(saldo);
    assert Despachado(cs, dto, valor) == (Fail(RuntimeException("Erro ao executar operação", saldo)), cs);
    assert ExceptionHandler.CausaRaiz(RuntimeException("Erro ao executar operação", saldo)) == saldo;
  }

  /** An account created by cadastrar carries no account status, so it is never active:
      every credit and every debit against it fails. */
  lemma ContaCadastradaNuncaOpera(dto: CadastroClienteDto, id: nat, debito: CreditoDebitoDto, valor: real)
    requires CadastroClienteValidador.CadastroValido(dto)
    ensures Credito(ToEntity(dto).(idConta := id), valor).Failure?
    ensures Debito(ToEntity(dto).(idConta := id), debito, valor).Failure?
  {
  }

  class OperacaoService {
    const clienteService: ClienteService

    constructor (clienteService: ClienteService)
      ensures this.clienteService == clienteService
    {
      this.clienteService := clienteService;
    }

    /** executar: validate, then credit or debit; whatever the step throws is wrapped once more. */
    method Executar(dto: CreditoDebitoDto) returns (r: Outcome<Throwable>)
      requires clienteService.Valid()
      modifies clienteService`clientes
      ensures clienteService.Valid()
      ensures (r, clienteService.clientes) == Executado(old(clienteService.clientes), dto)
    {
      var validacao := CreditoDebitoValidador.Validar(dto);
      if validacao.Fail? {
        return validacao;
      }
      var passo: Outcome<Throwable> := Pass;
      if dto.tipoOperacao == Some(CREDITO) {
        passo := Creditar(dto);
      } else if dto.tipoOperacao == Some(DEBITO) {
        passo := Debitar(dto);
      }
      if passo.Fail? {
        r := Fail(RuntimeException("Erro ao executar operação", passo.error));
      } else {
        r := Pass;
      }
    }

    /** creditar: called by executar once the request is valid. */
    method Creditar(dto: CreditoDebitoDto) returns (r: Outcome<Throwable>)
      requires clienteService.Valid()
      requires CreditoDebitoValidador.ValorValido(dto.valor) && dto.cpfCnpj.Some? && dto.tipoConta.Some?
      modifies clienteService`clientes
      ensures clienteService.Valid()
      ensures (r, clienteService.clientes) ==
                Creditado(old(clienteService.clientes), dto.cpfCnpj.value, dto.tipoConta.value,
                          ParseDecimal(dto.valor.value).value)
    {
      var valor := ParseDecimal(dto.valor.value).value;
      ghost var antes := clienteService.clientes;
      var busca := clienteService.FindByCpfCnpjAndTipoConta(dto.cpfCnpj.value, dto.tipoConta.value);
      if busca.Failure? {
        assert PrimeiroIndice(antes, dto.cpfCnpj.value, dto.tipoConta.value).None?;
        return Fail(RuntimeException("Cliente não encontrado", busca.error));
      }
      var cliente := busca.value;
      ghost var encontrado := cliente;
      assert PrimeiroIndice(antes, dto.cpfCnpj.value, dto.tipoConta.value).Some?;
      if cliente.situacaoConta == Some(ATIVA) {
        cliente := cliente.(saldo := cliente.saldo + valor);
        assert Credito(encontrado, valor) == Success(cliente);
        assert Creditado(antes, dto.cpfCnpj.value, dto.tipoConta.value, valor) == (Pass, Atualizado(antes, cliente));
        clienteService.AtualizarCliente(cliente);
        r := Pass;
      } else {
        assert Credito(encontrado, valor) == Failure(RuntimeExceptionSemCausa("Cliente não está ativo"));
        r := Fail(RuntimeException("Cliente não encontrado", RuntimeExceptionSemCausa("Cliente não está ativo")));
      }
    }

    /** debitar: called by executar once the request is valid. */
    method Debitar(dto: CreditoDebitoDto) returns (r: Outcome<Throwable>)
      requires clienteService.Valid()
      requires CreditoDebitoValidador.ValorValido(dto.valor) && dto.cpfCnpj.Some? && dto.tipoConta.Some?
      modifies clienteService`clientes
      ensures clienteService.Valid()
      ensures (r, clienteService.clientes) ==
                Debitado(old(clienteService.clientes), dto, dto.cpfCnpj.value, dto.tipoConta.value,
                         ParseDecimal(dto.valor.value).value)
    {
      var valor := ParseDecimal(dto.valor.value).value;
      var busca := clienteService.FindByCpfCnpjAndTipoConta(dto.cpfCnpj.value, dto.tipoConta.value);
      if busca.Failure? {
        return Fail(busca.error);
      }
      var cliente := busca.value;
      ghost var encontrado := cliente;
      if cliente.situacaoConta != Some(ATIVA) {
        assert Debito(encontrado, dto, valor) == Failure(RuntimeExceptionSemCausa("Cliente não está ativo"));
        return Fail(RuntimeExceptionSemCausa("Cliente não está ativo"));
      }
      if FaltaSaldo(cliente, valor) {
        assert Debito(encontrado, dto, valor) == Failure(SaldoNaoSuficienteException("Saldo insuficiente"));
        return Fail(SaldoNaoSuficienteException("Saldo insuficiente"));
      }
      var permitido := IsLimitePixPermitido(cliente, dto, valor);
      if permitido.Failure? {
        assert Debito(encontrado, dto, valor) == Failure(permitido.error);
        return Fail(permitido.error);
      }
      if permitido.value {
        cliente := cliente.(saldo := cliente.saldo - valor);
        assert Debito(encontrado, dto, valor) == Success(cliente);
        clienteService.AtualizarCliente(cliente);
        r := Pass;
      } else {
        assert Debito(encontrado, dto, valor) == Failure(ForaDoLimiteException("Limite de PIX não permitido"));
        r := Fail(ForaDoLimiteException("Limite de PIX não permitido"));
      }
    }
  }
}
