# conta-cliente — a verified model of the account service's core

conta-cliente is a small account service. A client registers an account, keyed by CPF/CNPJ and account type.
The account then receives credits and debits, subject to PIX limits that depend on the hour and on the network.
The service also protects itself with a per-IP rate limiter.

This Dafny project models the parts of the service that carry logic:

- **RateLimitFilter** (module `RateLimit`): the request filter as a state machine over two maps.
  - The blocklist maps an IP to its unblock instant.
  - The bucket map gives each IP a three-band token bucket (per second, per minute, per hour).
  - The response filter emits the per-band headers.
  - The class `RateLimit.RateLimitFilter` holds the two maps. Its `Filter` method is proved to perform exactly the transition `RateLimit.Passo`, which carries the filter's guarantees.
  - Refill and cache eviction are explicit steps.
  - A trace lemma bounds the admissions of one IP by the tokens of its bands.
- **CadastroClienteValidador** and **CreditoDebitoValidador**: the collect-then-throw validators.
  - Each field check adds at most one message.
  - `validar` throws exactly when the list is non-empty.
  - The null limits that make `validarLimites` throw instead are modelled too.
- **OperacaoService** (module `Operacoes`): the credit and debit rules.
  - A debit checks, in order, that the account is active, then the balance, then the PIX limit.
  - The PIX limit is the secure-network limit, or the night or day limit chosen by the hour.
  - Any failure leaves every account untouched.
- **DataUtil**: the date format "dd/MM/yyy HH:mm:ss" and the hour that `getHora` reads at the fixed offset 11.
- **ExceptionHandler**: the root-cause loop and the status dispatch.
  - Wrapping an error in further RuntimeExceptions never changes the status.
- **ClienteService** (module `Clientes`): registration, lookup, deletion, credit and debit over an in-memory store.
  - The store is a sequence of records, and a lookup returns the first match, as the DAO's `findFirst` does.
  - The DAO's query has no ORDER BY, so "first" is the database's result order. Taking insertion order is the model's choice. It only matters if a key repeats, and registration never lets one repeat (`ChavesUnicas` is preserved).

Modelling choices:

- BigDecimal is an exact `real`.
- The strings BigDecimal and Integer.parseInt accept are written out as grammars (module `Textos`).
- Java exceptions are values of the datatype `Excecoes.Throwable`, cause chain included.
- A method that can throw returns `Result` or `Outcome`.
- The clock is the parameter `now`, in epoch milliseconds.

Three behaviours of the code a caller may not expect, modelled as written:

- `getHora` reads characters 11–12 whatever the year's width.
- A registered account gets no account status and no PIX limits.
- `validarLimites` throws NullPointerException when the secure-network limit is present and non-negative and its comparison reaches a null day limit, or, once the day comparison passes, a null night limit. With a null or negative secure-network limit, a null day or night limit only adds its "obrigatorio" message.

## Model

| member | source | states |
|---|---|---|
| Textos.NatToString | src/main/java/org/viniciusvirgilli/ratelimit/RateLimitFilter.java:108-117 | String.valueOf of a count: a digit string without leading zero whose value is the count |
| Textos.ParseIntToString | src/main/java/org/viniciusvirgilli/ratelimit/RateLimitFilter.java:108-117 | Integer.parseInt reads String.valueOf(n) back as n, for every integer |
| Textos.ParseIntRejectsNonDigit | src/main/java/org/viniciusvirgilli/util/DataUtil.java:27 | Integer.parseInt refuses a string with a non-digit anywhere after its first character |
| Textos.ParseDecimalIntToString | src/main/java/org/viniciusvirgilli/validador/CadastroClienteValidador.java:64-68 | the BigDecimal grammar accepts the decimal text of every integer, with that value |
| ExceptionHandler.Cadeia | src/main/java/org/viniciusvirgilli/exception/handler/ExceptionHandler.java:74-80 | the cause chain starts at the exception itself |
| ExceptionHandler.CausaRaiz | src/main/java/org/viniciusvirgilli/exception/handler/ExceptionHandler.java:74-80 | the root cause is the last element of the cause chain and has no cause |
| ExceptionHandler.GetCause | src/main/java/org/viniciusvirgilli/exception/handler/ExceptionHandler.java:74-80 | the loop over getCause() ends and returns the root cause; an exception without a cause maps to itself |
| ExceptionHandler.StatusPara | src/main/java/org/viniciusvirgilli/exception/handler/ExceptionHandler.java:22-70 | an IllegalArgumentException root gives 400, a ValidadorException root the validator's configured code, ClienteJaCadastradoException 409, ClienteNaoEncontradoException 404, and any other root 500 |
| ExceptionHandler.ToResponse | src/main/java/org/viniciusvirgilli/exception/handler/ExceptionHandler.java:19-72 | the status is chosen by the root cause alone and the body's status always equals it; a recognised root gives the root's message, any other gives the outer exception's message; the field list is present exactly for a ValidadorException root |
| ExceptionHandler.EmbrulhaPreservaCausaRaiz | src/main/java/org/viniciusvirgilli/exception/handler/ExceptionHandler.java:20 | wrapping in any number of RuntimeExceptions keeps the root cause |
| ExceptionHandler.EmbrulhaPreservaStatus | src/main/java/org/viniciusvirgilli/exception/handler/ExceptionHandler.java:20-62 | wrapping in any number of RuntimeExceptions keeps the status |
| ExceptionHandler.NaoEncontradoEmbrulhadoDa404 | src/main/java/org/viniciusvirgilli/exception/handler/ExceptionHandler.java:54-62 | a not-found error, however deeply wrapped, is answered with 404 |
| DataUtil.CampoHora | src/main/java/org/viniciusvirgilli/util/DataUtil.java:11 | the HH field of a date `DataValida` accepts is at most 23, wherever the variable-width year puts it |
| DataUtil.IsDataOperacaoValida | src/main/java/org/viniciusvirgilli/util/DataUtil.java:13-24 | false for null; true only for a non-blank string `DataValida` accepts; `FormataDataValida` shows which dates it accepts |
| DataUtil.GetHora | src/main/java/org/viniciusvirgilli/util/DataUtil.java:26-28 | a string shorter than 13 characters throws StringIndexOutOfBoundsException; two digits at offsets 11-12 are returned as their value; any other failure is NumberFormatException; `GetHoraAnoQuatroDigitos` and `GetHoraAnoTresDigitos` give the result on valid dates |
| DataUtil.GetHoraAnoQuatroDigitos | src/main/java/org/viniciusvirgilli/util/DataUtil.java:26-28 | with a four-digit year, getHora returns exactly the HH field |
| DataUtil.GetHoraAnoTresDigitos | src/main/java/org/viniciusvirgilli/util/DataUtil.java:11-27 | with a three-digit year, which the pattern accepts, getHora throws NumberFormatException |
| DataUtil.AnoNovecentosENoventaENove | src/main/java/org/viniciusvirgilli/util/DataUtil.java:11-27 | "01/01/999 10:00:00" is a valid operation date, yet getHora fails on it with NumberFormatException for "0:" |
| DataUtil.DoisDigitos | src/main/java/org/viniciusvirgilli/util/DataUtil.java:11 | a two-digit field of the pattern: two digits that denote the number |
| DataUtil.DigitsValueConcat | src/main/java/org/viniciusvirgilli/util/DataUtil.java:11 | the value of a digit string split in two is the first part's value shifted by the second part's width, plus the second part's value |
| DataUtil.FormataDataValida | src/main/java/org/viniciusvirgilli/util/DataUtil.java:11-28 | every date written in the pattern with a four-digit year and in-range fields is accepted by isDataOperacaoValida, and getHora reads back its hour |
| CadastroClienteValidador.ProblemaTextoObrigatorio | src/main/java/org/viniciusvirgilli/validador/CadastroClienteValidador.java:46-50 | validarNome (and validarAgencia, lines 72-76): no message exactly when the text is present and not blank, otherwise only the field's "obrigatorio" key |
| CadastroClienteValidador.ProblemaCpfCnpj | src/main/java/org/viniciusvirgilli/validador/CadastroClienteValidador.java:52-58 | at most one message; none exactly for 11 or 14 digits; "cliente.cpfcnpj.obrigatorio" exactly for null or blank; "cliente.cpfcnpj.invalido" for any other text |
| CadastroClienteValidador.ProblemaSaldo | src/main/java/org/viniciusvirgilli/validador/CadastroClienteValidador.java:60-70 | at most one message, none exactly when saldo is a BigDecimal string (the sign is not checked); "cliente.saldo.obrigatorio" for null or empty; "cliente.saldo.invalido" for any other text |
| CadastroClienteValidador.ProblemaConta | src/main/java/org/viniciusvirgilli/validador/CadastroClienteValidador.java:78-85 | at most one message, none exactly when conta is present and not negative; "cliente.conta.obrigatorio" for null; "cliente.conta.invalido" for a negative number |
| CadastroClienteValidador.ProblemaPresente | src/main/java/org/viniciusvirgilli/validador/CadastroClienteValidador.java:87-91 | validarOperacao (and validarSituacaoConta, lines 109-113): no message exactly when the value is present, otherwise only the field's "obrigatorio" key |
| CadastroClienteValidador.ProblemaIspbParticipante | src/main/java/org/viniciusvirgilli/validador/CadastroClienteValidador.java:93-99 | at most one message, none exactly for CX or IF; "cliente.ispbparticipante.obrigatorio" for null; "cliente.ispbparticipante.invalido" for any other constant |
| CadastroClienteValidador.ProblemaTipoConta | src/main/java/org/viniciusvirgilli/validador/CadastroClienteValidador.java:101-107 | at most one message, none exactly for CACC or SVGS; "cliente.tipoconta.obrigatorio" for null; "cliente.tipoconta.invalido" for any other constant |
| CadastroClienteValidador.ProblemaLimite | src/main/java/org/viniciusvirgilli/validador/CadastroClienteValidador.java:116-126 | one limit check adds at most one message: none exactly when the limit is present and non-negative, the "obrigatorio" key for null, the "invalido" key for a negative limit |
| CadastroClienteValidador.ProblemasLimites | src/main/java/org/viniciusvirgilli/validador/CadastroClienteValidador.java:115-137 | throws NullPointerException exactly when the secure-network comparison meets a null day or night limit; otherwise at most three messages, none exactly when all limits are present, non-negative and the secure-network one is at least the other two |
| CadastroClienteValidador.Resultado | src/main/java/org/viniciusvirgilli/validador/CadastroClienteValidador.java:26-44 | returns normally exactly when every field is valid; otherwise throws the NullPointerException or a ValidadorException carrying 1 to 12 messages |
| CadastroClienteValidador.Validar | src/main/java/org/viniciusvirgilli/validador/CadastroClienteValidador.java:26-44 | the appending implementation runs the ten checks in source order and throws exactly what Resultado says |
| CadastroClienteValidador.SaldoNegativoAceito | src/main/java/org/viniciusvirgilli/validador/CadastroClienteValidador.java:60-70 | a negative balance such as "-5" passes validation |
| CreditoDebitoValidador.ProblemaValor | src/main/java/org/viniciusvirgilli/validador/CreditoDebitoValidador.java:48-61 | at most one message; none exactly for a strictly positive decimal; "creditoDebito.valor.obrigatorio" exactly for null or empty; "creditoDebito.valor.invalido" for any other text, zero and negatives included |
| CreditoDebitoValidador.ProblemaDataOperacao | src/main/java/org/viniciusvirgilli/validador/CreditoDebitoValidador.java:71-77 | at most one message; none exactly when isDataOperacaoValida holds; "creditoDebito.dataoperacao.obrigatorio" exactly for null or blank; "creditoDebito.dataoperacao.invalida" for text the parser refuses |
| CreditoDebitoValidador.ProblemaTipoOperacao | src/main/java/org/viniciusvirgilli/validador/CreditoDebitoValidador.java:79-85 | at most one message, none exactly for CREDITO or DEBITO; "creditoDebito.tipooperacao.obrigatorio" for null; "creditoDebito.tipooperacao.invalido" for any other constant |
| CreditoDebitoValidador.Problemas | src/main/java/org/viniciusvirgilli/validador/CreditoDebitoValidador.java:27-33 | at most five messages, none exactly when every field is valid |
| CreditoDebitoValidador.Validar | src/main/java/org/viniciusvirgilli/validador/CreditoDebitoValidador.java:24-38 | throws exactly when some field is invalid, and the ValidadorException carries the full, non-empty list |
| Clientes.PrimeiroIndice | src/main/java/org/viniciusvirgilli/dao/ClienteDao.java:58-69 | the index of the first record with that (cpfCnpj, tipoConta), or none exactly when no record matches |
| Clientes.PrimeiroIndiceAnexa | src/main/java/org/viniciusvirgilli/dao/ClienteDao.java:58-69 | appending a record keeps an earlier first match; without one, the new record matches if its key is the key sought |
| Clientes.IndicePorId | src/main/java/org/viniciusvirgilli/dao/ClienteDao.java:53-56 | the index of the record with that primary key, which may be any integer, or none exactly when no record has it |
| Clientes.ToEntity | src/main/java/org/viniciusvirgilli/service/ClienteService.java:113-124 | copies the eight registration fields, with saldo read as a BigDecimal; the account status and the three PIX limits stay null |
| Clientes.Atualizado | src/main/java/org/viniciusvirgilli/service/OperacaoService.java:51 | writing a record back keeps the length and every primary key, changes no record with a different key, and every record with its key becomes it |
| Clientes.AtualizadoSubstitui | src/main/java/org/viniciusvirgilli/service/OperacaoService.java:72 | with distinct primary keys, writing back a changed copy of record i replaces record i and nothing else |
| Clientes.SemIndice | src/main/java/org/viniciusvirgilli/service/ClienteService.java:97 | deleting record i keeps every other record, in order |
| Clientes.DeletarDesfazCadastrar | src/main/java/org/viniciusvirgilli/service/ClienteService.java:92-106 | deleting by the key of a record just inserted under a new key gives back the original store |
| Clientes.InserirChaveNovaPreservaUnicidade | src/main/java/org/viniciusvirgilli/service/ClienteService.java:40-50 | inserting only under new keys keeps (cpfCnpj, tipoConta) unique |
| Clientes.ClienteService.constructor | src/main/java/org/viniciusvirgilli/service/ClienteService.java:31-32 | the store starts empty |
| Clientes.ClienteService.Cadastrar | src/main/java/org/viniciusvirgilli/service/ClienteService.java:35-55 | an invalid request throws the validator's exception and an existing key throws ClienteJaCadastradoException, both with the store unchanged; otherwise exactly one record, ToEntity of the request, is appended; key uniqueness is preserved |
| Clientes.ClienteService.FindById | src/main/java/org/viniciusvirgilli/service/ClienteService.java:57-72 | for any id, negative ones included, returns the record with that key exactly when there is one; a missing key throws RuntimeException("Erro ao buscar cliente por ID") wrapping ClienteNaoEncontradoException, and a null id the same wrapper around the IllegalArgumentException of the entity manager's find |
| Clientes.IdNuloDa400 | src/main/java/org/viniciusvirgilli/service/ClienteService.java:57-72 | the exception findById throws for a null id is answered with 400, and the one for a missing id with 404 |
| Clientes.ClienteService.FindByCpfCnpjAndTipoConta | src/main/java/org/viniciusvirgilli/service/ClienteService.java:74-89 | returns the first matching record, or the wrapped not-found error exactly when none matches |
| Clientes.ClienteService.Deletar | src/main/java/org/viniciusvirgilli/service/ClienteService.java:92-107 | removes exactly the first matching record and keeps the others in order; with no match, throws the wrapped not-found error and changes nothing |
| Clientes.ClienteService.Creditar | src/main/java/org/viniciusvirgilli/service/ClienteService.java:126-145 | adds the amount to the matched record's balance and changes nothing else; with no match, throws the wrapped not-found error |
| Clientes.ClienteService.Debitar | src/main/java/org/viniciusvirgilli/service/ClienteService.java:147-166 | subtracts the amount with no balance check and changes nothing else; with no match, throws the wrapped not-found error with the credit message |
| Clientes.ClienteService.AtualizarCliente | src/main/java/org/viniciusvirgilli/service/OperacaoService.java:51 | the store becomes Atualizado of the old store, and primary keys stay distinct |
| Operacoes.DentroDoLimite | src/main/java/org/viniciusvirgilli/service/OperacaoService.java:85-89 | a limit allows exactly the amounts up to and including itself; a null limit throws NullPointerException |
| Operacoes.LimiteRedeSegura | src/main/java/org/viniciusvirgilli/service/OperacaoService.java:84-90 | on a secure network the answer does not depend on the date and is "amount at most the secure-network limit" |
| Operacoes.LimitePorHorario | src/main/java/org/viniciusvirgilli/service/OperacaoService.java:91-104 | off a secure network, with a four-digit year, the night limit applies exactly when HH is below 6 or at least 20 (so hour 6 is day and hour 20 is night), and the day limit applies otherwise |
| Operacoes.IsLimitePixPermitido | src/main/java/org/viniciusvirgilli/service/OperacaoService.java:83-105 | on a secure network, true exactly when the secure-network limit is present and at least the amount; off it, true only when the night or the day limit is present and at least the amount, and a null date throws NullPointerException; `LimiteRedeSegura` and `LimitePorHorario` state which limit applies |
| Operacoes.FaltaSaldo | src/main/java/org/viniciusvirgilli/service/OperacaoService.java:107-109 | the balance is insufficient exactly when saldo minus the amount is negative, so a debit that passes it (`Debito`, `DebitoBemSucedido`) leaves a non-negative balance |
| Operacoes.Credito | src/main/java/org/viniciusvirgilli/service/OperacaoService.java:49-55 | a credit succeeds exactly on an active account and then only adds the amount to the balance; otherwise "Cliente não está ativo" |
| Operacoes.Debito | src/main/java/org/viniciusvirgilli/service/OperacaoService.java:65-80 | the checks run in the order active, then balance, then PIX limit; a debit succeeds exactly when all three pass; then only the balance changes, and it stays non-negative; when the limit lookup itself throws (a null limit, a null or unreadable date), the debit throws that same exception |
| Operacoes.Creditado | src/main/java/org/viniciusvirgilli/service/OperacaoService.java:44-60 | creditar on the store: any failure leaves the store unchanged |
| Operacoes.Debitado | src/main/java/org/viniciusvirgilli/service/OperacaoService.java:62-81 | debitar on the store: any failure leaves the store unchanged |
| Operacoes.CreditadoBemSucedido | src/main/java/org/viniciusvirgilli/service/OperacaoService.java:44-53 | a credit that goes through found an active first match, and the new store is the old one with that record's saldo raised by the amount |
| Operacoes.DebitadoBemSucedido | src/main/java/org/viniciusvirgilli/service/OperacaoService.java:62-76 | a debit that goes through found an active first match with enough balance and a PIX limit that allows the amount, and the new store is the old one with that record's saldo lowered by the amount |
| Operacoes.Despachado | src/main/java/org/viniciusvirgilli/service/OperacaoService.java:32-41 | the try block of executar: a failure leaves the store unchanged and is wrapped in "Erro ao executar operação" |
| Operacoes.DespachadoSegueOPasso | src/main/java/org/viniciusvirgilli/service/OperacaoService.java:32-41 | for a credit (a debit), the try block succeeds exactly when creditar (debitar) does, and then leaves the store that step leaves |
| Operacoes.Executado | src/main/java/org/viniciusvirgilli/service/OperacaoService.java:29-42 | validation comes first: an invalid request throws the validator's exception and touches no account; a valid one is Despachado |
| Operacoes.CreditoEmContaAtiva | src/main/java/org/viniciusvirgilli/service/OperacaoService.java:49-51 | a credit on an active account sets saldo to saldo + valor on that record only |
| Operacoes.ContaInativaNaoOpera | src/main/java/org/viniciusvirgilli/service/OperacaoService.java:52-80 | a credit or debit on an inactive account fails, with "Cliente não está ativo" as root cause, and changes no account |
| Operacoes.DebitoBemSucedido | src/main/java/org/viniciusvirgilli/service/OperacaoService.java:65-72 | a successful debit subtracts the amount from the matched record only and leaves its balance non-negative |
| Operacoes.NaoEncontradoDa404 | src/main/java/org/viniciusvirgilli/service/OperacaoService.java:44-64 | a request for a missing account fails with the not-found error as root cause, which maps to 404, for credit and debit alike |
| Operacoes.SaldoInsuficienteDa500 | src/main/java/org/viniciusvirgilli/service/OperacaoService.java:66-69 | an insufficient balance is reported before the PIX limit is consulted, changes nothing, and maps to 500 |
| Operacoes.ContaCadastradaNuncaOpera | src/main/java/org/viniciusvirgilli/service/ClienteService.java:113-124 | a record created by cadastrar has no status, so every credit and every debit on it fails |
| Operacoes.OperacaoService.Executar | src/main/java/org/viniciusvirgilli/service/OperacaoService.java:28-42 | the new store and the outcome are exactly Executado of the old store |
| Operacoes.OperacaoService.Creditar | src/main/java/org/viniciusvirgilli/service/OperacaoService.java:44-60 | the new store and the outcome are exactly Creditado of the old store |
| Operacoes.OperacaoService.Debitar | src/main/java/org/viniciusvirgilli/service/OperacaoService.java:62-81 | the new store and the outcome are exactly Debitado of the old store |
| RateLimit.ExtraiIp | src/main/java/org/viniciusvirgilli/ratelimit/RateLimitFilter.java:170-179 | the X-Forwarded-For header if present, else the URI host if present, else "desconhecido" |
| RateLimit.CriaBalde | src/main/java/org/viniciusvirgilli/ratelimit/RateLimitFilter.java:121-137 | three full bands whose capacities are the per-second, per-minute and per-hour settings, in that order |
| RateLimit.Consumido | src/main/java/org/viniciusvirgilli/ratelimit/RateLimitFilter.java:77 | a successful tryConsume(1) takes exactly one token from every band and keeps the capacities |
| RateLimit.Recarregado | src/main/java/org/viniciusvirgilli/ratelimit/RateLimitFilter.java:124-130 | interval refill: a band whose period has elapsed is back to capacity, any other keeps its tokens |
| RateLimit.RespostaToManyRequests | src/main/java/org/viniciusvirgilli/ratelimit/RateLimitFilter.java:153-167 | a 429 for ip that reports ip's blocklist entry as bloqueadoAteInstante |
| RateLimit.Passo | src/main/java/org/viniciusvirgilli/ratelimit/RateLimitFilter.java:56-88 | disabled: nothing changes; blocked: refused with neither map touched; every abort has a blocklist entry and the 429 reports it; otherwise admitted exactly when every band has a token, and then one token per band is taken and only ip's expired entry leaves the blocklist, else the entry becomes now + minutosBloqueio·60000, overwriting any earlier one; other IPs are never affected; buckets stay valid |
| RateLimit.PassoResposta | src/main/java/org/viniciusvirgilli/ratelimit/RateLimitFilter.java:91-100 | the response side never touches the blocklist, only creates ip's bucket when missing, and changes nothing when disabled |
| RateLimit.HeadersAtePares | src/main/java/org/viniciusvirgilli/ratelimit/RateLimitFilter.java:102-119 | the headers of bands 0..n-1 are one available/limit pair per band, in band order |
| RateLimit.HeadersLegiveis | src/main/java/org/viniciusvirgilli/ratelimit/RateLimitFilter.java:108-117 | every header value reads back as the token count or capacity it reports |
| RateLimit.RateLimitFilter.constructor | src/main/java/org/viniciusvirgilli/ratelimit/RateLimitFilter.java:50-54 | both maps start empty |
| RateLimit.RateLimitFilter.IsIpBloqueado | src/main/java/org/viniciusvirgilli/ratelimit/RateLimitFilter.java:139-151 | true exactly when the entry's instant is still ahead; an expired entry is removed and all others are kept; an absent entry changes nothing |
| RateLimit.RateLimitFilter.ObtemBalde | src/main/java/org/viniciusvirgilli/ratelimit/RateLimitFilter.java:75 | the bucket of ip, created and stored when missing, so each IP has at most one bucket and both filters share it |
| RateLimit.RateLimitFilter.Filter | src/main/java/org/viniciusvirgilli/ratelimit/RateLimitFilter.java:56-88 | the outcome and the new maps are exactly Passo of the old maps, and every bucket keeps three bands within capacity |
| RateLimit.RateLimitFilter.PopulaHeadersResponse | src/main/java/org/viniciusvirgilli/ratelimit/RateLimitFilter.java:102-119 | one available/limit pair for each of the first three bands the bucket has (Second, Minute, Hour), in that order and no more |
| RateLimit.RateLimitFilter.FilterResponse | src/main/java/org/viniciusvirgilli/ratelimit/RateLimitFilter.java:91-100 | disabled: no headers and no change; otherwise six headers for the bucket of ip, and the maps change as PassoResposta says |
| RateLimit.RateLimitFilter.Recarrega | src/main/java/org/viniciusvirgilli/ratelimit/RateLimitFilter.java:124-130 | the refill step changes only ip's bucket, as Recarregado says |
| RateLimit.RateLimitFilter.Expira | src/main/java/org/viniciusvirgilli/ratelimit/RateLimitFilter.java:50-52 | the eviction step removes only ip's bucket |
| RateLimit.PassoRespostaPreservaDisponivel | src/main/java/org/viniciusvirgilli/ratelimit/RateLimitFilter.java:91-100 | the response filter keeps every bucket valid and never changes how many tokens any IP has in any band |
| RateLimit.PassoGastaFicha | src/main/java/org/viniciusvirgilli/ratelimit/RateLimitFilter.java:75-100 | one request with its response never gives tokens back, and an admission from ip costs each of ip's bands one token |
| RateLimit.AdmissoesLimitadas | src/main/java/org/viniciusvirgilli/ratelimit/RateLimitFilter.java:56-137 | over any sequence of requests, each followed by its response filter, with no refill or eviction, the admissions from one IP never exceed the tokens any of its bands had at the start, whatever other IPs do |
| RateLimit.AdmissoesDesdeOInicio | src/main/java/org/viniciusvirgilli/ratelimit/RateLimitFilter.java:122-130 | from empty maps, over requests and their responses, one IP gets at most min(per-second, per-minute, per-hour) admissions until a refill or an eviction |

In more detail, `RateLimit.Passo` states:

- A disabled filter returns at once and changes nothing.
- A blocked IP is refused and neither map changes, so no bucket is looked up, created or consumed.
- Every abort leaves an entry for the IP in the blocklist, and the 429 reports that entry.
- An unblocked request is admitted exactly when every band of its bucket (the existing one or a new one) has a token.
  - Admitted: the bucket loses one token per band, and only the IP's own expired entry leaves the blocklist.
  - Refused: the blocklist entry becomes now + minutosBloqueio·60000, overwriting any earlier one, and the bucket is stored unchanged.
- Other IPs are never affected.
- Every bucket keeps three bands within capacity.

## Left out

- Concurrency: ConcurrentHashMap and the cache's thread safety are left out, and requests are handled one at a time.
- Timing of the cache and bucket libraries:
  - Caffeine's expire-after-access eviction is the explicit step `Expira`.
  - bucket4j's interval refill is the explicit step `Recarrega`, which is told which bands' periods have elapsed.
  - The model does not compute when either step happens.
- Clock:
  - `System.currentTimeMillis()` is the parameter `now`.
  - The two reads in one request (the blocklist check and the new unblock instant) are taken as the same instant.
  - The formatted local-time field `bloqueadoAteHorario` and its time zone are left out.
- JAX-RS plumbing (request and response contexts, Response builders, header maps), CDI and logging are left out.
  - The error body's timestamp is left out.
- Persistence (EntityManager, JPQL, `@Transactional`) is an in-memory sequence of records with an id counter.
  - The catch around `persist` in cadastrar (ClienteService.java:51-54) cannot fire in the model, because storing never fails.
- Null query parameters for a key lookup: the controller passes nullable `cpfCnpj` and `tipoConta` values to findByCpfCnpjAndTipoConta and deletar. A JPQL equality with a null parameter matches no record, so a null behaves exactly as a key no record has. The model types these parameters as present values and does not restate that case.
- MessageUtils and its ResourceBundle are left out: messages are their keys.
- NullPointerException messages are modelled as null, and so is the message of the IllegalArgumentException the entity manager throws for a null id.
- Numbers:
  - Only ASCII digits are read as digits.
  - The BigDecimal exponent range (a scale beyond 32-bit) is not checked.
  - Integer.parseInt overflow cannot occur here, because getHora parses two characters.
  - long overflow of `now + minutosBloqueio*60000` is not modelled.
- Date parsing: LocalDateTime's SMART resolution is written out as field ranges, with day 1..31 in any month, since a day beyond the month's end is moved back to its last day.
  - The special "24:00:00" end-of-day form is not modelled.
- Source that does not resolve:
  - ClienteService.creditar and ClienteService.debitar call a three-argument `validar` that CreditoDebitoValidador does not declare, and creditar takes a `CreditoDto` that does not exist. That validation is left out; the model takes CreditaDto and DebitoDto with the fields present.
  - `atualizarCliente` is not declared anywhere. It is modelled as "replace the stored record that has the same primary key".
  - CreditoDebitoDto declares no `conectadoEmRedeSegura`. It is modelled as a boolean field.
  - The entity class in Cliente.java declares neither situacaoConta nor the PIX limits. The record takes its fields from their use sites, with saldo as the BigDecimal that toEntity's `setSaldo` of the request string stands for.
- The enum declarations (TipoContaEnum, ISPBParticipanteEnum, SituacaoContaEnum, TipoOperacaoEnum) are not part of this model. Each enum keeps the constants the code names, plus one case for any other constant.
- `RateLimit.RateLimitFilter`: the configuration requires positive band capacities, because bucket4j refuses a non-positive one when the bucket is built.
- `Operacoes.OperacaoService.Creditar` and `Operacoes.OperacaoService.Debitar` require a valid amount and a CPF/CNPJ and account type that are present. executar guarantees these by validating first.
