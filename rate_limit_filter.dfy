/**
 * RateLimitFilter: per-IP admission with a three-band token bucket and a
 * temporary blocklist. Time is the `now` parameter (milliseconds since the
 * epoch), the bucket is the sequence of its bands, and the two library
 * behaviours the filter relies on, interval refill and cache eviction, are
 * explicit steps.
 */
module RateLimit {
  import opened Wrappers
  import opened Textos

  /** The filter's configuration properties. */
  datatype Config = Config(
    enable: bool,
    requestsPorSegundo: nat,
    requestsPorMinuto: nat,
    requestsPorHora: nat,
    minutosBloqueio: int)

  /** The defaults of the configuration properties. */
  const CONFIG_PADRAO: Config := Config(true, 200, 1000, 6000, 1)

  /** A bucket band needs a positive capacity. */
  predicate ConfigValida(cfg: Config) {
    cfg.requestsPorSegundo >= 1 && cfg.requestsPorMinuto >= 1 && cfg.requestsPorHora >= 1
  }

  const MILIS_POR_MINUTO: int := 60000
  const STATUS_TOO_MANY_REQUESTS: int := 429
  const IP_DESCONHECIDO: string := "desconhecido"

  /** What the filter reads from a request: the X-Forwarded-For header and the host of
      the request URI, each possibly absent. */
  datatype Requisicao = Requisicao(xForwardedFor: Option<string>, hostUri: Option<string>)

  /** extraiIp: the forwarded address, else the URI host, else a fixed placeholder. */
  function ExtraiIp(req: Requisicao): (ip: string)
    ensures req.xForwardedFor.Some? ==> ip == req.xForwardedFor.value
    ensures req.xForwardedFor.None? && req.hostUri.Some? ==> ip == req.hostUri.value
    ensures req.xForwardedFor.None? && req.hostUri.None? ==> ip == IP_DESCONHECIDO
  {
    match req.xForwardedFor
    case Some(ip) => ip
    case None => if req.hostUri.Some? then req.hostUri.value else IP_DESCONHECIDO
  }

  /** One bandwidth of a bucket: its capacity and the tokens it has left. */
  datatype Banda = Banda(capacidade: nat, disponivel: nat)

  /** A bucket is its bands, in the order they were added. */
  type Balde = seq<Banda>

  /** The capacities of the per-second, per-minute and per-hour bands, in that order. */
  function Capacidades(cfg: Config): seq<nat> {
    [cfg.requestsPorSegundo, cfg.requestsPorMinuto, cfg.requestsPorHora]
  }

  /** A bucket of this filter: three bands with the configured capacities, none over capacity. */
  ghost predicate BaldeValido(cfg: Config, b: Balde) {
    && |b| == 3
    && (forall k | 0 <= k < 3 :: b[k].capacidade == Capacidades(cfg)[k])
    && (forall k | 0 <= k < 3 :: b[k].disponivel <= b[k].capacidade)
  }

  /** criaBalde: three full bands, per second, per minute and per hour. */
  function CriaBalde(cfg: Config): (b: Balde)
    ensures BaldeValido(cfg, b)
    ensures forall k | 0 <= k < |b| :: b[k].disponivel == b[k].capacidade
  {
    [Banda(cfg.requestsPorSegundo, cfg.requestsPorSegundo),
     Banda(cfg.requestsPorMinuto, cfg.requestsPorMinuto),
     Banda(cfg.requestsPorHora, cfg.requestsPorHora)]
  }

  /** tryConsume(1) can succeed: every band has a token. */
  predicate TemFicha(b: Balde) {
    forall k | 0 <= k < |b| :: b[k].disponivel >= 1
  }

  /** The bucket after tryConsume(1) succeeds: one token less in every band. */
  function Consumido(b: Balde): (r: Balde)
    requires TemFicha(b)
    ensures |r| == |b|
    ensures forall k | 0 <= k < |b| :: r[k].capacidade == b[k].capacidade && r[k].disponivel + 1 == b[k].disponivel
  {
    seq(|b|, k requires 0 <= k < |b| => b[k].(disponivel := b[k].disponivel - 1))
  }

  /** Interval refill, as an abstract step: each band whose period has elapsed since its last
      refill (vencidas[k]) gets its capacity back; the others keep their tokens. */
  function Recarregado(b: Balde, vencidas: seq<bool>): (r: Balde)
    requires |vencidas| == |b|
    ensures |r| == |b|
    ensures forall k | 0 <= k < |b| :: r[k].capacidade == b[k].capacidade
    ensures forall k | 0 <= k < |b| :: r[k].disponivel == if vencidas[k] then b[k].capacidade else b[k].disponivel
  {
    seq(|b|, k requires 0 <= k < |b| => if vencidas[k] then b[k].(disponivel := b[k].capacidade) else b[k])
  }

  /** The 429 payload of respostaToManyRequests, without the formatted local time. */
  datatype Resposta429 = Resposta429(
    status: int, erro: string, mensagem: string, bloqueadoAteInstante: int, ip: string)

  /** respostaToManyRequests: reads the unblock instant of ip from the blocklist, which
      therefore must hold it (the unboxing of a missing entry would throw). */
  function RespostaToManyRequests(cfg: Config, ipsBloqueados: map<string, int>, ip: string): (r: Resposta429)
    requires ip in ipsBloqueados
    ensures r.status == STATUS_TOO_MANY_REQUESTS && r.ip == ip
    ensures r.bloqueadoAteInstante == ipsBloqueados[ip]
  {
    Resposta429(STATUS_TOO_MANY_REQUESTS, "Limite de requisições excedito",
                "Aguarde " + IntToString(cfg.minutosBloqueio) + " minuto(s) antes de tentar novamente",
                ipsBloqueados[ip], ip)
  }

  /** The two maps of the filter. */
  datatype Estado = Estado(ipsBloqueados: map<string, int>, baldes: map<string, Balde>)

  ghost predicate EstadoValido(cfg: Config, s: Estado) {
    forall ip | ip in s.baldes :: BaldeValido(cfg, s.baldes[ip])
  }

  /** ip is blocked at now: it has an entry whose instant is still ahead. */
  predicate Bloqueado(ipsBloqueados: map<string, int>, ip: string, now: int) {
    ip in ipsBloqueados && now < ipsBloqueados[ip]
  }

  /** baldes.get(ip, k -> criaBalde()): the bucket of ip, a new one when it has none. */
  function BaldeDe(cfg: Config, s: Estado, ip: string): Balde {
    if ip in s.baldes then s.baldes[ip] else CriaBalde(cfg)
  }

  /** The unblock instant of a rate-rejected request. */
  function Desbloqueio(cfg: Config, now: int): int {
    now + cfg.minutosBloqueio * MILIS_POR_MINUTO
  }

  /**
   * The request filter as a state transition: the 429 it aborts with, if any, and the
   * new maps.
   */
  function Passo(cfg: Config, s: Estado, ip: string, now: int): (r: (Option<Resposta429>, Estado))
    // disabled: nothing happens
    ensures !cfg.enable ==> r == (None, s)
    // a blocked request is refused before any bucket is looked up, created or consumed
    ensures cfg.enable && Bloqueado(s.ipsBloqueados, ip, now) ==> r.0.Some? && r.1 == s
    // every abort has a blocklist entry to report, and reports exactly that entry
    ensures r.0.Some? ==> ip in r.1.ipsBloqueados && r.0.value == RespostaToManyRequests(cfg, r.1.ipsBloqueados, ip)
    ensures r.0.Some? ==> Bloqueado(r.1.ipsBloqueados, ip, now) || cfg.minutosBloqueio <= 0
    // an unblocked request is admitted exactly when every band has a token
    ensures cfg.enable && !Bloqueado(s.ipsBloqueados, ip, now) ==>
              && ip in r.1.baldes
              && (r.0.None? <==> TemFicha(BaldeDe(cfg, s, ip)))
              && (r.0.None? ==> r.1.baldes[ip] == Consumido(BaldeDe(cfg, s, ip))
                                && r.1.ipsBloqueados == s.ipsBloqueados - {ip})
              && (r.0.Some? ==> r.1.baldes[ip] == BaldeDe(cfg, s, ip)
                                && r.1.ipsBloqueados == s.ipsBloqueados[ip := Desbloqueio(cfg, now)])
    // other addresses are never affected
    ensures forall o | o != ip :: (o in r.1.baldes <==> o in s.baldes) && (o in s.baldes ==> r.1.baldes[o] == s.baldes[o])
    ensures forall o | o != ip :: (o in r.1.ipsBloqueados <==> o in s.ipsBloqueados)
                                  && (o in s.ipsBloqueados ==> r.1.ipsBloqueados[o] == s.ipsBloqueados[o])
    ensures EstadoValido(cfg, s) ==> EstadoValido(cfg, r.1)
  {
    if !cfg.enable then (None, s)
    else if Bloqueado(s.ipsBloqueados, ip, now) then
      (Some(RespostaToManyRequests(cfg, s.ipsBloqueados, ip)), s)
    else
      var desbloqueados := s.ipsBloqueados - {ip};
      var balde := BaldeDe(cfg, s, ip);
      if TemFicha(balde) then
        (None, Estado(desbloqueados, s.baldes[ip := Consumido(balde)]))
      else
        var bloqueados := desbloqueados[ip := Desbloqueio(cfg, now)];
        assert bloqueados == s.ipsBloqueados[ip := Desbloqueio(cfg, now)];
        (Some(RespostaToManyRequests(cfg, bloqueados, ip)), Estado(bloqueados, s.baldes[ip := balde]))
  }

  /** A response header. */
  datatype Header = Header(nome: string, valor: string)

  /** The time unit of band k in the header names. */
  function NomeBanda(k: nat): string
    requires k < 3
  {
    if k == 0 then "Second" else if k == 1 then "Minute" else "Hour"
  }

  /** The headers of one band: the tokens it has left, then its capacity. */
  function HeadersBanda(b: Balde, k: nat): seq<Header>
    requires k < 3 && k < |b|
  {
    [Header("X-RateLimit-available-" + NomeBanda(k), NatToString(b[k].disponivel)),
     Header("X-RateLimit-Limit-" + NomeBanda(k), NatToString(b[k].capacidade))]
  }

  /** The header pairs of bands 0 .. n-1, in band order. */
  function HeadersAte(b: Balde, n: nat): seq<Header>
    requires n <= 3 && n <= |b|
  {
    if n == 0 then [] else HeadersAte(b, n - 1) + HeadersBanda(b, n - 1)
  }

  /** Pair k of the headers of bands 0 .. n-1 is the pair of band k. */
  lemma {:induction false} HeadersAtePares(b: Balde, n: nat)
    requires n <= 3 && n <= |b|
    ensures |HeadersAte(b, n)| == 2 * n
    ensures forall k | 0 <= k < n :: HeadersAte(b, n)[2 * k..2 * k + 2] == HeadersBanda(b, k)
  {
    if n > 0 {
      HeadersAtePares(b, n - 1);
      var h := HeadersAte(b, n - 1);
      assert HeadersAte(b, n) == h + HeadersBanda(b, n - 1);
      forall k | 0 <= k < n ensures HeadersAte(b, n)[2 * k..2 * k + 2] == HeadersBanda(b, k) {
        if k < n - 1 {
          assert HeadersAte(b, n)[2 * k..2 * k + 2] == h[2 * k..2 * k + 2];
        } else {
          assert HeadersAte(b, n)[2 * k..2 * k + 2] == HeadersBanda(b, n - 1);
        }
      }
    }
  }

  /** Every value populaHeadersResponse emits reads back as the count it reports. */
  lemma HeadersLegiveis(b: Balde, k: nat)
    requires k < 3 && k < |b|
    ensures ParseInt(HeadersBanda(b, k)[0].valor) == Some(b[k].disponivel as int)
    ensures ParseInt(HeadersBanda(b, k)[1].valor) == Some(b[k].capacidade as int)
  {
    ParseIntToString(b[k].disponivel);
    ParseIntToString(b[k].capacidade);
  }

  /** The response-filter step on the maps: disabled, nothing; otherwise the bucket of ip is
      created when missing and only read. */
  function PassoResposta(cfg: Config, s: Estado, ip: string): (r: Estado)
    ensures !cfg.enable ==> r == s
    ensures cfg.enable ==> r == Estado(s.ipsBloqueados, s.baldes[ip := BaldeDe(cfg, s, ip)])
    ensures r.ipsBloqueados == s.ipsBloqueados
    ensures ip in s.baldes ==> r == s
    ensures EstadoValido(cfg, s) ==> EstadoValido(cfg, r)
  {
    if !cfg.enable then s
    else
      if ip in s.baldes then
        assert s.baldes[ip := s.baldes[ip]] == s.baldes;
        s
      else Estado(s.ipsBloqueados, s.baldes[ip := CriaBalde(cfg)])
  }

  class RateLimitFilter {
    const cfg: Config
    /** IP -> the instant (ms) until which it is refused. */
    var ipsBloqueados: map<string, int>
    /** IP -> its bucket. */
    var baldes: map<string, Balde>

    ghost predicate Valid()
      reads this
    {
      ConfigValida(cfg) && EstadoValido(cfg, Estado(ipsBloqueados, baldes))
    }

    constructor (cfg: Config)
      requires ConfigValida(cfg)
      ensures Valid() && this.cfg == cfg
      ensures ipsBloqueados == map[] && baldes == map[]
    {
      this.cfg := cfg;
      ipsBloqueados := map[];
      baldes := map[];
    }

    /** isIpBloqueado: true while the entry's instant is ahead; an entry whose instant has
        passed is removed; an address without an entry changes nothing. */
    method IsIpBloqueado(ip: string, now: int) returns (bloqueado: bool)
      modifies this`ipsBloqueados
      ensures bloqueado <==> Bloqueado(old(ipsBloqueados), ip, now)
      ensures ip in old(ipsBloqueados) && now < old(ipsBloqueados)[ip] ==> ipsBloqueados == old(ipsBloqueados)
      ensures ip in old(ipsBloqueados) && now >= old(ipsBloqueados)[ip] ==> ipsBloqueados == old(ipsBloqueados) - {ip}
      ensures ip !in old(ipsBloqueados) ==> ipsBloqueados == old(ipsBloqueados)
    {
      if ip !in ipsBloqueados {
        return false;
      }
      if now < ipsBloqueados[ip] {
        return true;
      }
      ipsBloqueados := ipsBloqueados - {ip};
      bloqueado := false;
    }

    /** baldes.get(ip, k -> criaBalde()): the bucket of ip, created and stored when missing. */
    method ObtemBalde(ip: string) returns (balde: Balde)
      modifies this`baldes
      ensures balde == BaldeDe(cfg, Estado(ipsBloqueados, old(baldes)), ip)
      ensures baldes == old(baldes)[ip := balde]
    {
      if ip in baldes {
        balde := baldes[ip];
      } else {
        balde := CriaBalde(cfg);
      }
      baldes := baldes[ip := balde];
    }

    /** filter(requestContext): the request side. */
    method Filter(req: Requisicao, now: int) returns (abortado: Option<Resposta429>)
      requires Valid()
      modifies this
      ensures Valid()
      ensures (abortado, Estado(ipsBloqueados, baldes)) ==
                Passo(cfg, old(Estado(ipsBloqueados, baldes)), ExtraiIp(req), now)
    {
      if !cfg.enable {
        return None;
      }
      var ip := ExtraiIp(req);
      ghost var s := Estado(ipsBloqueados, baldes);
      var bloqueado := IsIpBloqueado(ip, now);
      if bloqueado {
        return Some(RespostaToManyRequests(cfg, ipsBloqueados, ip));
      }
      assert ipsBloqueados == s.ipsBloqueados - {ip};
      var balde := ObtemBalde(ip);
      if TemFicha(balde) {
        balde := Consumido(balde);
        baldes := baldes[ip := balde];
        abortado := None;
        assert baldes == s.baldes[ip := balde];
      } else {
        ipsBloqueados := ipsBloqueados[ip := Desbloqueio(cfg, now)];
        abortado := Some(RespostaToManyRequests(cfg, ipsBloqueados, ip));
      }
      assert (abortado, Estado(ipsBloqueados, baldes)) == Passo(cfg, s, ip, now);
    }

    /** populaHeadersResponse: an available/limit header pair for each of the first three bands
        the bucket has, in band order. */
    method PopulaHeadersResponse(balde: Balde) returns (headers: seq<Header>)
      ensures |headers| == 2 * (if |balde| < 3 then |balde| else 3)
      ensures forall k | 0 <= k < 3 && k < |balde| :: headers[2 * k..2 * k + 2] == HeadersBanda(balde, k)
    {
      headers := [];
      if |balde| > 0 {
        headers := headers + HeadersBanda(balde, 0);
        assert headers == HeadersAte(balde, 1);
      }
      if |balde| > 1 {
        headers := headers + HeadersBanda(balde, 1);
        assert headers == HeadersAte(balde, 2);
      }
      if |balde| > 2 {
        headers := headers + HeadersBanda(balde, 2);
        assert headers == HeadersAte(balde, 3);
      }
      HeadersAtePares(balde, if |balde| < 3 then |balde| else 3);
    }

    /** filter(requestContext, responseContext): the response side. It only reads the tokens
        of the bucket of ip (creating the bucket when missing) and never the blocklist. */
    method FilterResponse(req: Requisicao) returns (headers: seq<Header>)
      requires Valid()
      modifies this`baldes
      ensures Valid()
      ensures Estado(ipsBloqueados, baldes) == PassoResposta(cfg, old(Estado(ipsBloqueados, baldes)), ExtraiIp(req))
      ensures !cfg.enable ==> headers == []
      ensures cfg.enable ==> |headers| == 6 && forall k | 0 <= k < 3 ::
                headers[2 * k..2 * k + 2] == HeadersBanda(BaldeDe(cfg, old(Estado(ipsBloqueados, baldes)), ExtraiIp(req)), k)
    {
      if !cfg.enable {
        return [];
      }
      var ip := ExtraiIp(req);
      var balde := ObtemBalde(ip);
      headers := PopulaHeadersResponse(balde);
    }

    /** The bucket library's interval refill of the bucket of ip. */
    method Recarrega(ip: string, vencidas: seq<bool>)
      requires Valid() && |vencidas| == 3
      modifies this`baldes
      ensures Valid()
      ensures ip in old(baldes) ==> baldes == old(baldes)[ip := Recarregado(old(baldes)[ip], vencidas)]
      ensures ip !in old(baldes) ==> baldes == old(baldes)
    {
      if ip in baldes {
        baldes := baldes[ip := Recarregado(baldes[ip], vencidas)];
      }
    }

    /** The cache's expire-after-access eviction of the bucket of ip. */
    method Expira(ip: string)
      requires Valid()
      modifies this`baldes
      ensures Valid()
      ensures baldes == old(baldes) - {ip}
    {
      baldes := baldes - {ip};
    }
  }

  /** The tokens band k of ip would offer now: those of its bucket, or a full band. */
  function Disponivel(cfg: Config, s: Estado, ip: string, k: nat): nat
    requires k < 3 && EstadoValido(cfg, s)
  {
    BaldeDe(cfg, s, ip)[k].disponivel
  }

  /** The response filter never changes what any band would offer: a bucket it creates is full. */
  lemma PassoRespostaPreservaDisponivel(cfg: Config, s: Estado, ip: string, o: string, k: nat)
    requires k < 3 && EstadoValido(cfg, s)
    ensures EstadoValido(cfg, PassoResposta(cfg, s, ip))
    ensures Disponivel(cfg, PassoResposta(cfg, s, ip), o, k) == Disponivel(cfg, s, o, k)
  {
    if cfg.enable && ip !in s.baldes && o == ip {
      assert BaldeDe(cfg, PassoResposta(cfg, s, ip), o) == CriaBalde(cfg);
    }
  }

  /** A request arriving from ip at instant now. */
  datatype Chegada = Chegada(ip: string, now: int)

  /** One request and its response: the request filter's step, then the response filter's
      step for the same address, which the container runs after every request, aborted or not. */
  function Ciclo(cfg: Config, s: Estado, c: Chegada): (Option<Resposta429>, Estado) {
    var r := Passo(cfg, s, c.ip, c.now);
    (r.0, PassoResposta(cfg, r.1, c.ip))
  }

  /** The state after a sequence of requests and their responses, with no refill and no
      eviction in between. */
  function Apos(cfg: Config, s: Estado, cs: seq<Chegada>): Estado
    decreases |cs|
  {
    if cs == [] then s else Apos(cfg, Ciclo(cfg, s, cs[0]).1, cs[1..])
  }

  /** How many of those requests from ip are admitted. */
  function AdmitidasDe(cfg: Config, s: Estado, cs: seq<Chegada>, ip: string): nat
    decreases |cs|
  {
    if cs == [] then 0
    else
      var r := Ciclo(cfg, s, cs[0]);
      (if cs[0].ip == ip && r.0.None? then 1 else 0) + AdmitidasDe(cfg, r.1, cs[1..], ip)
  }

  /** One request and its response: an admission from ip takes one token from each of its
      bands, and nothing gives any back. */
  lemma PassoGastaFicha(cfg: Config, s: Estado, c: Chegada, ip: string, k: nat)
    requires cfg.enable && EstadoValido(cfg, s) && k < 3
    ensures EstadoValido(cfg, Ciclo(cfg, s, c).1)
    ensures (if c.ip == ip && Ciclo(cfg, s, c).0.None? then 1 else 0)
              + Disponivel(cfg, Ciclo(cfg, s, c).1, ip, k) <= Disponivel(cfg, s, ip, k)
  {
    var r := Passo(cfg, s, c.ip, c.now);
    PassoRespostaPreservaDisponivel(cfg, r.1, c.ip, ip, k);
  }

  /**
   * Without refill or eviction, the requests admitted from one address never outnumber the
   * tokens any of its bands had at the start, whatever other addresses do in between, the
   * response filter's steps included.
   */
  lemma {:induction false} AdmissoesLimitadas(cfg: Config, s: Estado, cs: seq<Chegada>, ip: string, k: nat)
    requires cfg.enable && EstadoValido(cfg, s) && k < 3
    ensures AdmitidasDe(cfg, s, cs, ip) <= Disponivel(cfg, s, ip, k)
    decreases |cs|
  {
    if cs != [] {
      var r := Ciclo(cfg, s, cs[0]);
      PassoGastaFicha(cfg, s, cs[0], ip, k);
      AdmissoesLimitadas(cfg, r.1, cs[1..], ip, k);
    }
  }

  /** From an empty state, an address gets at most requestsPorSegundo admissions until a refill
      or an eviction. */
  lemma AdmissoesDesdeOInicio(cfg: Config, cs: seq<Chegada>, ip: string)
    requires cfg.enable
    ensures AdmitidasDe(cfg, Estado(map[], map[]), cs, ip) <= cfg.requestsPorSegundo
    ensures AdmitidasDe(cfg, Estado(map[], map[]), cs, ip) <= cfg.requestsPorMinuto
    ensures AdmitidasDe(cfg, Estado(map[], map[]), cs, ip) <= cfg.requestsPorHora
  {
    AdmissoesLimitadas(cfg, Estado(map[], map[]), cs, ip, 0);
    AdmissoesLimitadas(cfg, Estado(map[], map[]), cs, ip, 1);
    AdmissoesLimitadas(cfg, Estado(map[], map[]), cs, ip, 2);
  }
}
