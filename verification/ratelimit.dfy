/** The per-IP limiter registry of `rateLimit`: a map from client address to its
    limiter and the time it was last seen, with lazy insertion, a refresh on every
    request, and a sweep of idle entries. The limiter itself (`rate.Limiter`) is an
    opaque state `L` with an abstract `allow` step; the clock is an integer count of
    nanoseconds. */
module RateLimit {
  import opened Wrappers
  import opened Data
  import opened Http
  import opened Errors
  import opened Outcomes

  datatype Client<L> = Client(limiter: L, lastSeen: int)

  type Registry<L> = map<string, Client<L>>

  /** An entry idle for longer than this is dropped by the sweep. */
  const StaleAfter: int := 3 * Minute

  /** What the middleware does with the request: pass it on, answer 429, or, with the
      limiter switched off, nothing at all (an empty response). */
  datatype Admission = Forwarded | TooManyRequests | NoResponse

  /** The limiter settings: whether limiting is on, the limiter a new client starts
      with (built from the configured rate and burst), and `Allow`, which reports
      whether a token was available at the given time and returns the limiter after
      taking it; the token bucket refills with time, so the same state can refuse a
      request now and grant one later. */
  datatype Limiter<!L> = Limiter(enabled: bool, initial: L, allow: (L, int) -> (bool, L))

  predicate Stale<L>(c: Client<L>, now: int) {
    now - c.lastSeen > StaleAfter
  }

  /** One pass of the background sweep at time `now`. */
  function Sweep<L>(reg: Registry<L>, now: int): (r: Registry<L>)
    ensures forall ip :: ip in r <==> ip in reg && !Stale(reg[ip], now)
    ensures forall ip :: ip in r ==> r[ip] == reg[ip]
  {
    map ip | ip in reg && !Stale(reg[ip], now) :: reg[ip]
  }

  /** The registry step of an enabled limiter: insert a fresh limiter only for an
      unknown address, stamp `lastSeen`, then ask the limiter. */
  function Touch<L>(reg: Registry<L>, ip: string, now: int, cfg: Limiter<L>): (r: (Registry<L>, bool))
    ensures r.0.Keys == reg.Keys + {ip}
    ensures r.0[ip].lastSeen == now
    ensures ip in reg ==> r == (reg[ip := Client(cfg.allow(reg[ip].limiter, now).1, now)], cfg.allow(reg[ip].limiter, now).0)
    ensures ip !in reg ==> r == (reg[ip := Client(cfg.allow(cfg.initial, now).1, now)], cfg.allow(cfg.initial, now).0)
    ensures forall other :: other in reg && other != ip ==> r.0[other] == reg[other]
  {
    var reg1 := if ip !in reg then reg[ip := Client(cfg.initial, 0)] else reg;
    var reg2 := reg1[ip := reg1[ip].(lastSeen := now)];
    var (ok, limiter) := cfg.allow(reg2[ip].limiter, now);
    var reg3 := reg2[ip := reg2[ip].(limiter := limiter)];
    assert reg3 == reg[ip := Client(limiter, now)];
    (reg3, ok)
  }

  /** `rateLimit` as written: with limiting off the handler returns without forwarding
      and without writing, and the registry is untouched; with it on, a refused
      request is answered 429 and not forwarded. */
  function AdmitAsWritten<L>(reg: Registry<L>, ip: string, now: int, cfg: Limiter<L>): (r: (Registry<L>, Admission))
    ensures !cfg.enabled ==> r == (reg, NoResponse)
    ensures cfg.enabled ==> r.0 == Touch(reg, ip, now, cfg).0
    ensures cfg.enabled ==> (r.1 == Forwarded <==> Touch(reg, ip, now, cfg).1)
    ensures cfg.enabled ==> r.1 != NoResponse
  {
    if !cfg.enabled then (reg, NoResponse)
    else
      var (reg', ok) := Touch(reg, ip, now, cfg);
      (reg', if ok then Forwarded else TooManyRequests)
  }

  /** The evidently intended behaviour: with limiting off every request is passed on. */
  function Admit<L>(reg: Registry<L>, ip: string, now: int, cfg: Limiter<L>): (r: (Registry<L>, Admission))
    ensures !cfg.enabled ==> r == (reg, Forwarded)
    ensures cfg.enabled ==> r == AdmitAsWritten(reg, ip, now, cfg)
    ensures r.1 != NoResponse
  {
    if !cfg.enabled then (reg, Forwarded) else AdmitAsWritten(reg, ip, now, cfg)
  }

  /** As written, switching the limiter off stops every request: none is ever passed
      on to the application. */
  lemma DisabledLimiterForwardsNothing<L>(reg: Registry<L>, ip: string, now: int, cfg: Limiter<L>)
    requires !cfg.enabled
    ensures AdmitAsWritten(reg, ip, now, cfg).1 != Forwarded
    ensures Admit(reg, ip, now, cfg).1 == Forwarded
  {
  }

  /** An existing client keeps its limiter (advanced by one `Allow`), never a new one. */
  lemma ExistingLimiterKept<L>(reg: Registry<L>, ip: string, now: int, cfg: Limiter<L>)
    requires cfg.enabled && ip in reg
    ensures Admit(reg, ip, now, cfg).0[ip].limiter == cfg.allow(reg[ip].limiter, now).1
  {
  }

  /** A client just let through survives every sweep within the idle threshold. */
  lemma AdmittedSurvivesSweep<L>(reg: Registry<L>, ip: string, now: int, later: int, cfg: Limiter<L>)
    requires cfg.enabled
    requires now <= later <= now + StaleAfter
    ensures ip in Sweep(Admit(reg, ip, now, cfg).0, later)
  {
  }

  /** Sweeping twice at the same time removes nothing more. */
  lemma SweepIdempotent<L>(reg: Registry<L>, now: int)
    ensures Sweep(Sweep(reg, now), now) == Sweep(reg, now)
  {
  }

  /** A later sweep keeps no more than an earlier one. */
  lemma SweepMonotone<L>(reg: Registry<L>, t1: int, t2: int)
    requires t1 <= t2
    ensures Sweep(reg, t2).Keys <= Sweep(reg, t1).Keys
  {
  }

  /** A client idle past the threshold is forgotten by the sweep, and its next request
      starts again from a fresh limiter. */
  lemma StaleClientStartsFresh<L>(reg: Registry<L>, ip: string, now: int, next: int, cfg: Limiter<L>)
    requires cfg.enabled && ip in reg && Stale(reg[ip], now)
    ensures ip !in Sweep(reg, now)
    ensures Admit(Sweep(reg, now), ip, next, cfg).0[ip] == Client(cfg.allow(cfg.initial, next).1, next)
  {
  }

  /** The reply an admission decision becomes: the request goes on with the caller's
      principal, is refused with the rate-limit response, or gets no reply at all. */
  function Answer(a: Admission, p: Principal): (r: Option<Reply>)
    ensures r.None? <==> a == NoResponse
    ensures r == Some(Fail(RateLimitExceeded)) <==> a == TooManyRequests
    ensures r == Some(Forward(p)) <==> a == Forwarded
  {
    match a
    case Forwarded => Some(Forward(p))
    case TooManyRequests => Some(Fail(RateLimitExceeded))
    case NoResponse => None
  }

  /** A request the limiter refuses is answered with status 429 and the rate-limit
      message, and is not passed on. */
  lemma RefusalIsTooManyRequests<L>(reg: Registry<L>, ip: string, now: int, cfg: Limiter<L>, p: Principal,
                                    x: Exchange, req: Request, encode: Encoder, unshown: UnshownTable)
    requires cfg.enabled && !Touch(reg, ip, now, cfg).1
    requires x.status.None?
    requires encode(JEnvelope("error", JString(RateLimitMessage))).Success?
    ensures Answer(AdmitAsWritten(reg, ip, now, cfg).1, p) == Some(Fail(RateLimitExceeded))
    ensures Render(x, req, Fail(RateLimitExceeded), encode, unshown).status == Some(429)
    ensures Render(x, req, Fail(RateLimitExceeded), encode, unshown).body
         == x.body + encode(JEnvelope("error", JString(RateLimitMessage))).value + "\n"
  {
  }
}
