/**
 * ClienteService over an in-memory store. The store is the sequence of stored
 * accounts; a lookup by (cpfCnpj, tipoConta) returns the first match, as the
 * DAO's query with findFirst does. The query fixes no order: keeping insertion
 * order is this model's choice, and it matters only if a key repeats.
 */
module Clientes {
  import opened Wrappers
  import opened Textos
  import opened Excecoes
  import opened Modelo
  import CadastroClienteValidador
  import ExceptionHandler

  predicate Corresponde(c: Cliente, cpfCnpj: string, tipoConta: TipoConta) {
    c.cpfCnpj == cpfCnpj && c.tipoConta == tipoConta
  }

  /** findByCpfCnpjAndTipoConta / jaExisteConta: the index of the first match, if any. */
  function PrimeiroIndice(cs: seq<Cliente>, cpfCnpj: string, tipoConta: TipoConta): (r: Option<nat>)
    ensures r.Some? ==> r.value < |cs| && Corresponde(cs[r.value], cpfCnpj, tipoConta)
    ensures r.Some? ==> forall j | 0 <= j < r.value :: !Corresponde(cs[j], cpfCnpj, tipoConta)
    ensures r.None? <==> forall j | 0 <= j < |cs| :: !Corresponde(cs[j], cpfCnpj, tipoConta)
  {
    if cs == [] then None
    else if Corresponde(cs[0], cpfCnpj, tipoConta) then Some(0)
    else
      match PrimeiroIndice(cs[1..], cpfCnpj, tipoConta)
      case None => None
      case Some(i) => Some(i + 1)
  }

  /** findByIdOptional: the index of the record with that primary key, if any. */
  function IndicePorId(cs: seq<Cliente>, id: int): (r: Option<nat>)
    ensures r.Some? ==> r.value < |cs| && cs[r.value].idConta == id
    ensures r.None? <==> forall j | 0 <= j < |cs| :: cs[j].idConta != id
  {
    if cs == [] then None
    else if cs[0].idConta == id then Some(0)
    else
      match IndicePorId(cs[1..], id)
      case None => None
      case Some(i) => Some(i + 1)
  }

  /** No two stored accounts share a primary key. */
  ghost predicate IdsDistintos(cs: seq<Cliente>) {
    forall i, j | 0 <= i < j < |cs| :: cs[i].idConta != cs[j].idConta
  }

  /** No two stored accounts share a (cpfCnpj, tipoConta) key. */
  ghost predicate ChavesUnicas(cs: seq<Cliente>) {
    forall i, j | 0 <= i < j < |cs| :: !Corresponde(cs[i], cs[j].cpfCnpj, cs[j].tipoConta)
  }

  /** toEntity: copies the eight registration fields; the account status and the three
      PIX limits are not copied and stay null. The parsed balance is BigDecimal(saldo). */
  function ToEntity(dto: CadastroClienteDto): (c: Cliente)
    requires CadastroClienteValidador.CadastroValido(dto)
    ensures c.nome == dto.nome.value && c.cpfCnpj == dto.cpfCnpj.value
    ensures Some(c.saldo) == ParseDecimal(dto.saldo.value)
    ensures c.agencia == dto.agencia.value && c.conta == dto.conta.value
    ensures Some(c.tipoConta) == dto.tipoConta && c.operacao == dto.operacao.value
    ensures Some(c.ispbParticipante) == dto.ispbParticipante
    ensures c.situacaoConta.None?
    ensures c.limitePixDiurno.None? && c.limitePixNoturno.None? && c.limitePixRedeSegura.None?
  {
    Cliente(0, dto.nome.value, dto.cpfCnpj.value, ParseDecimal(dto.saldo.value).value, dto.agencia.value,
            dto.conta.value, dto.tipoConta.value, dto.operacao.value, dto.ispbParticipante.value,
            None, None, None, None)
  }

  /** The wrapped not-found error of a lookup by (cpfCnpj, tipoConta). */
  function NaoEncontradoPorChave(): Throwable {
    RuntimeException("Erro ao buscar cliente por CPF/CNPJ e tipo de conta", ClienteNaoEncontradoException())
  }

  /** The store after writing c back over the record that has its primary key. */
  function Atualizado(cs: seq<Cliente>, c: Cliente): (r: seq<Cliente>)
    ensures |r| == |cs|
    ensures forall j {:trigger r[j]} | 0 <= j < |cs| :: r[j].idConta == cs[j].idConta
    ensures forall j {:trigger r[j]} | 0 <= j < |cs| && cs[j].idConta != c.idConta :: r[j] == cs[j]
    ensures forall j {:trigger r[j]} | 0 <= j < |cs| && cs[j].idConta == c.idConta :: r[j] == c
  {
    if cs == [] then []
    else [if cs[0].idConta == c.idConta then c else cs[0]] + Atualizado(cs[1..], c)
  }

  /** With distinct primary keys, writing back a changed copy of record i replaces record i only. */
  lemma AtualizadoSubstitui(cs: seq<Cliente>, i: nat, c: Cliente)
    requires IdsDistintos(cs) && i < |cs| && cs[i].idConta == c.idConta
    ensures Atualizado(cs, c) == cs[i := c]
  {
    var r := Atualizado(cs, c);
    forall j | 0 <= j < |cs| ensures r[j] == cs[i := c][j] {
      if j < i {
        assert cs[j].idConta != cs[i].idConta;
      } else if j > i {
        assert cs[i].idConta != cs[j].idConta;
      }
    }
  }

  /** The store with the record at i taken out. */
  function SemIndice(cs: seq<Cliente>, i: nat): (r: seq<Cliente>)
    requires i < |cs|
    ensures |r| == |cs| - 1
    ensures forall j | 0 <= j < i :: r[j] == cs[j]
    ensures forall j | i <= j < |r| :: r[j] == cs[j + 1]
  {
    cs[..i] + cs[i + 1..]
  }

  /** Appending a record leaves earlier matches first; with none, the new record is the match. */
  lemma {:induction false} PrimeiroIndiceAnexa(cs: seq<Cliente>, c: Cliente, cpfCnpj: string, tipoConta: TipoConta)
    ensures PrimeiroIndice(cs + [c], cpfCnpj, tipoConta) ==
              if PrimeiroIndice(cs, cpfCnpj, tipoConta).Some? then PrimeiroIndice(cs, cpfCnpj, tipoConta)
              else if Corresponde(c, cpfCnpj, tipoConta) then Some(|cs|)
              else None
  {
    if cs == [] {
      assert cs + [c] == [c];
    } else {
      assert (cs + [c])[0] == cs[0];
      assert (cs + [c])[1..] == cs[1..] + [c];
      PrimeiroIndiceAnexa(cs[1..], c, cpfCnpj, tipoConta);
    }
  }

  /** Inserting an account whose key is new and then deleting by that key gives back the store. */
  lemma DeletarDesfazCadastrar(cs: seq<Cliente>, c: Cliente)
    requires PrimeiroIndice(cs, c.cpfCnpj, c.tipoConta).None?
    ensures PrimeiroIndice(cs + [c], c.cpfCnpj, c.tipoConta) == Some(|cs|)
    ensures SemIndice(cs + [c], |cs|) == cs
  {
    PrimeiroIndiceAnexa(cs, c, c.cpfCnpj, c.tipoConta);
    assert (cs + [c])[..|cs|] == cs;
  }

  /** Inserting only accounts whose key is new keeps keys unique. */
  lemma InserirChaveNovaPreservaUnicidade(cs: seq<Cliente>, c: Cliente)
    requires ChavesUnicas(cs)
    requires PrimeiroIndice(cs, c.cpfCnpj, c.tipoConta).None?
    ensures ChavesUnicas(cs + [c])
  {
    forall i, j | 0 <= i < j < |cs + [c]|
      ensures !Corresponde((cs + [c])[i], (cs + [c])[j].cpfCnpj, (cs + [c])[j].tipoConta)
    {
      if j == |cs| {
        assert !Corresponde(cs[i], c.cpfCnpj, c.tipoConta);
      }
    }
  }

  /** A lookup by a null primary key is answered with 400, not with the 404 of a missing
      account: the root of the wrapped error is the entity manager's IllegalArgumentException. */
  lemma IdNuloDa400()
    ensures ExceptionHandler.StatusPara(ExceptionHandler.CausaRaiz(
              RuntimeException("Erro ao buscar cliente por ID", IllegalArgumentException())).tipo) == 400
    ensures ExceptionHandler.StatusPara(ExceptionHandler.CausaRaiz(
              RuntimeException("Erro ao buscar cliente por ID", ClienteNaoEncontradoException())).tipo) == 404
  {
    assert ExceptionHandler.CausaRaiz(RuntimeException("Erro ao buscar cliente por ID", IllegalArgumentException()))
      == IllegalArgumentException();
    assert ExceptionHandler.CausaRaiz(RuntimeException("Erro ao buscar cliente por ID", ClienteNaoEncontradoException()))
      == ClienteNaoEncontradoException();
  }

  class ClienteService {
    /** The stored accounts, in insertion order. */
    var clientes: seq<Cliente>
    /** The next primary key the store hands out. */
    var proximoId: nat

    /** Primary keys are below proximoId and pairwise distinct. */
    ghost predicate Valid()
      reads this
    {
      && (forall i | 0 <= i < |clientes| :: clientes[i].idConta < proximoId)
      && IdsDistintos(clientes)
    }

    constructor ()
      ensures Valid() && clientes == []
    {
      clientes := [];
      proximoId := 1;
    }

    /** cadastrar */
    method Cadastrar(dto: CadastroClienteDto) returns (r: Result<Cliente, Throwable>)
      requires Valid()
      modifies this
      ensures Valid()
      ensures CadastroClienteValidador.Resultado(dto).Fail? ==>
                r == Failure(CadastroClienteValidador.Resultado(dto).error) && clientes == old(clientes)
      ensures CadastroClienteValidador.Resultado(dto).Pass?
                && PrimeiroIndice(old(clientes), dto.cpfCnpj.value, dto.tipoConta.value).Some? ==>
                r == Failure(ClienteJaCadastradoException()) && clientes == old(clientes)
      ensures CadastroClienteValidador.Resultado(dto).Pass?
                && PrimeiroIndice(old(clientes), dto.cpfCnpj.value, dto.tipoConta.value).None? ==>
                r == Success(ToEntity(dto).(idConta := old(proximoId))) && clientes == old(clientes) + [r.value]
      ensures ChavesUnicas(old(clientes)) ==> ChavesUnicas(clientes)
    {
      var validacao := CadastroClienteValidador.Validar(dto);
      if validacao.Fail? {
        return Failure(validacao.error);
      }
      if PrimeiroIndice(clientes, dto.cpfCnpj.value, dto.tipoConta.value).Some? {
        return Failure(ClienteJaCadastradoException());
      }
      var entity := ToEntity(dto);
      entity := entity.(idConta := proximoId);
      if ChavesUnicas(clientes) {
        InserirChaveNovaPreservaUnicidade(clientes, entity);
      }
      clientes := clientes + [entity];
      proximoId := proximoId + 1;
      r := Success(entity);
    }

    /** findById: the record with that key, or the not-found error wrapped in a RuntimeException.
        A null key makes the entity manager throw IllegalArgumentException, which the same catch
        wraps. */
    method FindById(id: Option<int>) returns (r: Result<Cliente, Throwable>)
      ensures r.Success? <==> id.Some? && IndicePorId(clientes, id.value).Some?
      ensures r.Success? ==> r.value == clientes[IndicePorId(clientes, id.value).value] && r.value.idConta == id.value
      ensures id.None? ==> r == Failure(RuntimeException("Erro ao buscar cliente por ID", IllegalArgumentException()))
      ensures id.Some? && r.Failure? ==>
                r.error == RuntimeException("Erro ao buscar cliente por ID", ClienteNaoEncontradoException())
    {
      if id.None? {
        return Failure(RuntimeException("Erro ao buscar cliente por ID", IllegalArgumentException()));
      }
      var i := IndicePorId(clientes, id.value);
      if i.Some? {
        r := Success(clientes[i.value]);
      } else {
        r := Failure(RuntimeException("Erro ao buscar cliente por ID", ClienteNaoEncontradoException()));
      }
    }

    /** findByCpfCnpjAndTipoConta: the first matching record, or the wrapped not-found error. */
    method FindByCpfCnpjAndTipoConta(cpfCnpj: string, tipoConta: TipoConta) returns (r: Result<Cliente, Throwable>)
      ensures r.Success? <==> PrimeiroIndice(clientes, cpfCnpj, tipoConta).Some?
      ensures r.Success? ==> r.value == clientes[PrimeiroIndice(clientes, cpfCnpj, tipoConta).value]
      ensures r.Success? ==> Corresponde(r.value, cpfCnpj, tipoConta)
      ensures r.Failure? ==> r.error == NaoEncontradoPorChave()
    {
      var i := PrimeiroIndice(clientes, cpfCnpj, tipoConta);
      if i.Some? {
        r := Success(clientes[i.value]);
      } else {
        r := Failure(NaoEncontradoPorChave());
      }
    }

    /** deletar: removes exactly the first matching record. */
    method Deletar(cpfCnpj: string, tipoConta: TipoConta) returns (r: Outcome<Throwable>)
      requires Valid()
      modifies this`clientes
      ensures Valid()
      ensures r.Pass? <==> PrimeiroIndice(old(clientes), cpfCnpj, tipoConta).Some?
      ensures r.Pass? ==> clientes == SemIndice(old(clientes), PrimeiroIndice(old(clientes), cpfCnpj, tipoConta).value)
      ensures r.Fail? ==> clientes == old(clientes)
      ensures r.Fail? ==>
                r.error == RuntimeException("Erro ao deletar cliente por CPF/CNPJ e tipo de conta",
                                            ClienteNaoEncontradoException())
    {
      var i := PrimeiroIndice(clientes, cpfCnpj, tipoConta);
      if i.Some? {
        clientes := SemIndice(clientes, i.value);
        r := Pass;
      } else {
        r := Fail(RuntimeException("Erro ao deletar cliente por CPF/CNPJ e tipo de conta",
                                   ClienteNaoEncontradoException()));
      }
    }

    /** creditar: adds the amount to the first matching record's balance. */
    method Creditar(dto: CreditaDto) returns (r: Outcome<Throwable>)
      requires Valid()
      modifies this`clientes
      ensures Valid()
      ensures r.Pass? <==> PrimeiroIndice(old(clientes), dto.cpfCnpj, dto.tipoConta).Some?
      ensures r.Pass? ==>
                var i := PrimeiroIndice(old(clientes), dto.cpfCnpj, dto.tipoConta).value;
                clientes == old(clientes)[i := old(clientes)[i].(saldo := old(clientes)[i].saldo + dto.valorCredito)]
      ensures r.Fail? ==> clientes == old(clientes)
      ensures r.Fail? ==> r.error == RuntimeException("Erro ao creditar cliente", ClienteNaoEncontradoException())
    {
      var i := PrimeiroIndice(clientes, dto.cpfCnpj, dto.tipoConta);
      if i.Some? {
        var cliente := clientes[i.value];
        cliente := cliente.(saldo := cliente.saldo + dto.valorCredito);
        clientes := clientes[i.value := cliente];
        r := Pass;
      } else {
        r := Fail(RuntimeException("Erro ao creditar cliente", ClienteNaoEncontradoException()));
      }
    }

    /** debitar: subtracts the amount from the first matching record's balance, with no balance check. */
    method Debitar(dto: DebitoDto) returns (r: Outcome<Throwable>)
      requires Valid()
      modifies this`clientes
      ensures Valid()
      ensures r.Pass? <==> PrimeiroIndice(old(clientes), dto.cpfCnpj, dto.tipoConta).Some?
      ensures r.Pass? ==>
                var i := PrimeiroIndice(old(clientes), dto.cpfCnpj, dto.tipoConta).value;
                clientes == old(clientes)[i := old(clientes)[i].(saldo := old(clientes)[i].saldo - dto.valorDebito)]
      ensures r.Fail? ==> clientes == old(clientes)
      ensures r.Fail? ==> r.error == RuntimeException("Erro ao creditar cliente", ClienteNaoEncontradoException())
    {
      var i := PrimeiroIndice(clientes, dto.cpfCnpj, dto.tipoConta);
      if i.Some? {
        var cliente := clientes[i.value];
        cliente := cliente.(saldo := cliente.saldo - dto.valorDebito);
        clientes := clientes[i.value := cliente];
        r := Pass;
      } else {
        r := Fail(RuntimeException("Erro ao creditar cliente", ClienteNaoEncontradoException()));
      }
    }

    /** atualizarCliente: writes a changed record back over the stored one with the same primary key. */
    method AtualizarCliente(c: Cliente)
      requires Valid()
      modifies this`clientes
      ensures Valid()
      ensures clientes == Atualizado(old(clientes), c)
    {
      clientes := Atualizado(clientes, c);
    }
  }
}
