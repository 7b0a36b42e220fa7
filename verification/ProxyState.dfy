/** The proxy's shared state as the code keeps it: what a reload replaces, and how a request gets
    its caller. */
module ProxyState {
  import opened Wrappers
  import opened Config
  import opened Policy
  import opened Access
  import Auth
  import RateLimit
  import M = Metrics
  import Lifecycle
  import Tls
  import Upstream

  /** How the console is reached: the address every call is put below, the key, and how the
      console's certificate is judged. */
  datatype Connection = Connection(base: string, apiKey: string, mode: Tls.Mode)

  function Connect(c: ControllerConfig): Result<Connection, nat> {
    match Tls.ClientConfig(c.tls)
    case Err(e) => Err(e)
    case Ok(mode) => Ok(Connection(Upstream.NormalizeHost(c.host) + Upstream.API, c.apiKey, mode))
  }

  /** A validated configuration always connects: below the API's address on its host, over TLS unless
      plaintext was allowed, with its own key, to a certificate that is pinned when pins are given and
      unchecked only when that was asked for. */
  lemma ValidatedConfigConnects(cfg: Config)
    requires Validate(cfg).Ok?
    ensures Connect(cfg.controller).Ok?
    ensures var c := Connect(cfg.controller).value;
            && c.base == Upstream.NormalizeHost(cfg.controller.host) + "/proxy/network/integration/v1"
            && c.apiKey == cfg.controller.apiKey != []
            && (!cfg.controller.tls.allowPlaintext ==> Upstream.HTTPS <= c.base)
            && (cfg.controller.tls.fingerprints.Some? <==> c.mode.Pinned?)
            && (c.mode.AcceptAny? <==> cfg.controller.tls.insecureSkipVerify)
  {
    Tls.ValidatedConfigBuildsTls(cfg);
    if !cfg.controller.tls.allowPlaintext { ValidatedHostUsesTls(cfg); }
  }

  /** Everything a reload can replace. */
  class Live {
    const auth: Auth.Authenticator
    const upstream: Connection
    const limits: Limits
    const rate: RateLimit.RateLimits
    const tokenCount: nat

    ghost predicate Valid()
      reads auth`cache, rate`store, rate`sweep, rate`queries
    {
      auth.Valid() && rate.Valid() && tokenCount == |auth.tokens|
    }

    constructor Of(crypto: Auth.Crypto, quotaOf: u32 -> RateLimit.Quota, cfg: Config, upstream: Connection)
      ensures Valid() && fresh(auth) && fresh(rate)
      ensures auth.crypto == crypto && auth.tokens == cfg.tokens && auth.cache == map[]
      ensures limits == cfg.limits && tokenCount == |cfg.tokens| && this.upstream == upstream
      ensures rate.quotaOf == quotaOf && rate.limiters == RateLimit.LimitersFor(cfg.tokens, cfg.limits)
      ensures rate.ipRate == cfg.limits.rateLimitPerIpPerMinute && rate.store == map[] && rate.queries == []
    {
      auth := new Auth.Authenticator(crypto, cfg.tokens);
      this.upstream := upstream;
      limits := cfg.limits;
      rate := new RateLimit.RateLimits.FromConfig(quotaOf, cfg.tokens, cfg.limits);
      tokenCount := |cfg.tokens|;
    }

    /** A generation is built when its console can be connected to and the libraries take its hashes
        and its connection; it then holds this configuration, whole, and nothing from any other. */
    static method Build(crypto: Auth.Crypto, quotaOf: u32 -> RateLimit.Quota, cfg: Config, builds: bool) returns (r: Option<Live>)
      ensures r.Some? <==> builds && Connect(cfg.controller).Ok?
      ensures r.Some? ==> fresh(r.value) && fresh(r.value.auth) && fresh(r.value.rate) && r.value.Holds(crypto, quotaOf, cfg)
    {
      var upstream := Connect(cfg.controller);
      if upstream.Err? || !builds {
        return None;
      }
      var live := new Live.Of(crypto, quotaOf, cfg, upstream.value);
      r := Some(live);
    }

    /** Freshly built from this configuration: its tokens, limits and connection, an empty cache and
        full budgets. */
    ghost predicate Holds(crypto: Auth.Crypto, quotaOf: u32 -> RateLimit.Quota, cfg: Config)
      reads auth`cache, rate
    {
      && Valid()
      && auth.crypto == crypto && auth.tokens == cfg.tokens && auth.cache == map[]
      && limits == cfg.limits && tokenCount == |cfg.tokens|
      && Connect(cfg.controller) == Ok(upstream)
      && rate.quotaOf == quotaOf && rate.limiters == RateLimit.LimitersFor(cfg.tokens, cfg.limits)
      && rate.ipRate == cfg.limits.rateLimitPerIpPerMinute && rate.store == map[] && rate.queries == []
    }
  }

  datatype ReloadError = NoPath | Unreadable | Invalid(e: ConfigError) | Unbuildable

  /** What one attempt to reload finds: whether there is a file to read, what it holds, and whether
      the libraries take it. */
  datatype Found = Found(hasPath: bool, file: Option<Config>, builds: bool)

  function Outcome(f: Found): Result<Config, ReloadError> {
    if !f.hasPath then Err(NoPath)
    else if f.file.None? then Err(Unreadable)
    else if Validate(f.file.value).Err? then Err(Invalid(Validate(f.file.value).error))
    else if !f.builds || Connect(f.file.value.controller).Err? then Err(Unbuildable)
    else Ok(f.file.value)
  }

  /** Why a request is turned away before it has a caller. */
  function ErrorOf(why: Lifecycle.Refusal): ErrorKind {
    match why
    case IpRateLimited => RateLimited
    case MissingToken => Unauthorized
    case UnknownToken => Unauthorized
    case LapsedToken => TokenExpired
  }

  /** What becomes of a request whose token was resolved to `found`. */
  function Admit(tokens: seq<TokenConfig>, limits: Limits, ipOk: bool, presented: Option<string>, found: Option<nat>, now: nat)
    : Result<Caller, (string, Lifecycle.Refusal)>
    requires found.Some? ==> found.value < |tokens|
  {
    if !ipOk then Err(("-", Lifecycle.IpRateLimited))
    else if presented.None? then Err(("-", Lifecycle.MissingToken))
    else
      match found
      case None => Err(("-", Lifecycle.UnknownToken))
      case Some(i) =>
        if tokens[i].IsExpiredAt(now) then Err((tokens[i].name, Lifecycle.LapsedToken))
        else Ok(CallerFor(tokens[i], limits))
  }

  /** Who a request is, told without the cache: the first token the presented text matches, if the
      address check passed and the token has not lapsed. */
  function Identify(crypto: Auth.Crypto, tokens: seq<TokenConfig>, limits: Limits, ipOk: bool, presented: Option<string>, now: nat)
    : Result<Caller, (string, Lifecycle.Refusal)>
  {
    Admit(tokens, limits, ipOk, presented, if presented.Some? then Auth.Scan(crypto, tokens, presented.value) else None, now)
  }

  /** The answer to the client, and the one counter a refusal bumps. */
  predicate Answers(caller: Result<Caller, ErrorKind>, before: M.Requests, after: M.Requests, matched: Option<Lifecycle.Route>,
                    verdict: Result<Caller, (string, Lifecycle.Refusal)>)
  {
    match verdict
    case Ok(c) => caller == Ok(c) && after == before
    case Err((name, why)) =>
      && caller == Err(ErrorOf(why))
      && after == M.CountRequest(before, M.Key(name, Lifecycle.RouteText(matched), Lifecycle.RefusalText(why)))
  }

  /** With the memo or without it, a request is identified alike. */
  lemma MemoIdentifiesLikeTheScan(crypto: Auth.Crypto, tokens: seq<TokenConfig>, cache: Auth.Cache, limits: Limits,
                                  ipOk: bool, presented: Option<string>, now: nat)
    requires Auth.CollisionFree(crypto, tokens) && Auth.CacheJustified(crypto, tokens, cache)
    ensures Admit(tokens, limits, ipOk, presented,
                  if presented.Some? then Auth.AuthenticateOn(crypto, tokens, cache, presented.value).0 else None, now)
            == Identify(crypto, tokens, limits, ipOk, presented, now)
  {
    if presented.Some? && presented.value != [] && crypto.digest(presented.value) in cache {
      Auth.HitIsFirstMatch(crypto, tokens, cache, presented.value);
    }
  }

  class AppState {
    var live: Live
    const metrics: M.Metrics

    ghost predicate Valid()
      reads this`live, live.auth`cache, live.rate`store, live.rate`sweep, live.rate`queries
    {
      live.Valid()
    }

    constructor (live: Live)
      requires live.Valid()
      ensures Valid() && this.live == live && fresh(metrics)
      ensures metrics.requests == map[] && metrics.vouchersCreated == map[]
    {
      this.live := live;
      metrics := new M.Metrics();
    }

    /** A reload that fails leaves the very same object in place, with its cache and its limiters
        as they were; one that succeeds installs a new one, with an empty cache and full budgets. */
    method Reload(found: Found, crypto: Auth.Crypto, quotaOf: u32 -> RateLimit.Quota) returns (count: Result<nat, ReloadError>)
      requires Valid()
      modifies this`live
      ensures Valid()
      ensures count.Ok? <==> found.hasPath && found.file.Some? && Validate(found.file.value).Ok? && found.builds
      ensures count == Err(NoPath) <==> !found.hasPath
      ensures count == Err(Unreadable) <==> found.hasPath && found.file.None?
      ensures count.Err? && count.error.Invalid? <==> found.hasPath && found.file.Some? && Validate(found.file.value).Err?
      ensures count.Err? && count.error.Invalid? ==> count.error.e == Validate(found.file.value).error
      ensures count == Err(Unbuildable) <==> found.hasPath && found.file.Some? && Validate(found.file.value).Ok? && !found.builds
      ensures count.Err? ==> unchanged(this)
      ensures count.Ok? ==>
                && count.value == |found.file.value.tokens|
                && fresh(live) && fresh(live.auth) && fresh(live.rate)
                && live.Holds(crypto, quotaOf, found.file.value)
      ensures count.Ok? <==> Outcome(found).Ok?
    {
      if !found.hasPath {
        return Err(NoPath);
      }
      if found.file.None? {
        return Err(Unreadable);
      }
      var cfg := found.file.value;
      var valid := Validate(cfg);
      if valid.Err? {
        return Err(Invalid(valid.error));
      }
      ValidatedConfigConnects(cfg);
      var next := Live.Build(crypto, quotaOf, cfg, found.builds);
      if next.None? {
        return Err(Unbuildable);
      }
      count := Ok(next.value.tokenCount);
      live := next.value;
    }

    /** One turn of the signal loop: a reload, then its own counter and no other. */
    method OnHangup(found: Found, crypto: Auth.Crypto, quotaOf: u32 -> RateLimit.Quota)
      requires Valid()
      modifies this`live, metrics`reloads, metrics`reloadFailures
      ensures Valid()
      ensures var taken := found.hasPath && found.file.Some? && Validate(found.file.value).Ok? && found.builds;
              && metrics.reloads == old(metrics.reloads) + (if taken then 1 else 0)
              && metrics.reloadFailures == old(metrics.reloadFailures) + (if taken then 0 else 1)
              && (live == old(live) <==> !taken)
              && (taken ==>
                    && fresh(live) && fresh(live.auth) && fresh(live.rate)
                    && live.Holds(crypto, quotaOf, found.file.value))
              && Outcome(found) == if taken then Ok(found.file.value) else Err(Outcome(found).error)
    {
      var r := Reload(found, crypto, quotaOf);
      metrics.RecordReload(r.Ok?);
    }

    /** The extractor: the address is charged first, then the token is looked up, then its expiry is
        checked, all against the one `Live` loaded at the start. A refusal is counted once, under the
        route pattern; success is not counted here. */
    method Extract(peer: Option<RateLimit.Ip>, presented: Option<string>, matched: Option<Lifecycle.Route>, now: nat)
      returns (caller: Result<Caller, ErrorKind>, ghost ipOk: bool)
      requires Valid() && RateLimit.Latest(live.rate.queries) <= now
      modifies live.auth, live.rate`store, live.rate`sweep, live.rate`queries, metrics`requests
      ensures Valid()
      ensures peer.None? || live.rate.ipRate == 0 ==> ipOk && live.rate.store == old(live.rate.store)
      ensures peer.Some? && live.rate.ipRate != 0 ==>
                var q := live.rate.quotaOf(live.rate.ipRate);
                (ipOk, live.rate.store) ==
                  RateLimit.CheckKey(q, RateLimit.StoreToCheck(q, old(live.rate.store), old(live.rate.sweep), now), peer.value, now)
      ensures !ipOk || presented.None? ==>
                live.auth.cache == old(live.auth.cache) && live.auth.verifications == old(live.auth.verifications)
      ensures ipOk && presented.Some? ==>
                live.auth.cache == Auth.AuthenticateOn(live.auth.crypto, live.auth.tokens, old(live.auth.cache), presented.value).1
      ensures !ipOk ==> caller == Err(RateLimited)
      ensures ipOk && presented.None? ==> caller == Err(Unauthorized)
      ensures ipOk && presented.Some? ==>
                var found := Auth.AuthenticateOn(live.auth.crypto, live.auth.tokens, old(live.auth.cache), presented.value).0;
                && (found.None? ==> caller == Err(Unauthorized))
                && (found.Some? ==>
                      var token := live.auth.tokens[found.value];
                      && (caller == Err(TokenExpired) <==> token.expiresAt.Some? && now >= token.expiresAt.value)
                      && (caller.Ok? <==> token.expiresAt.None? || now < token.expiresAt.value)
                      && (caller.Ok? ==>
                            caller.value == Caller(token, Ceilings(token.EffectiveMaxVouchers(live.limits), token.EffectiveMaxValidity(live.limits)))))
      ensures Answers(caller, old(metrics.requests), metrics.requests, matched,
                      Admit(live.auth.tokens, live.limits, ipOk, presented,
                            if presented.Some? then Auth.AuthenticateOn(live.auth.crypto, live.auth.tokens, old(live.auth.cache), presented.value).0
                            else None, now))
    {
      var live := this.live;
      var route := Lifecycle.RouteText(matched);
      ipOk := true;
      if peer.Some? {
        var ok := live.rate.CheckIp(peer.value, now);
        ipOk := ok;
        if !ok {
          metrics.RecordRequest("-", route, Lifecycle.RefusalText(Lifecycle.IpRateLimited));
          return Err(RateLimited), ipOk;
        }
      }
      if presented.None? {
        metrics.RecordRequest("-", route, Lifecycle.RefusalText(Lifecycle.MissingToken));
        return Err(Unauthorized), ipOk;
      }
      var found := live.auth.Authenticate(presented.value);
      if found.None? {
        metrics.RecordRequest("-", route, Lifecycle.RefusalText(Lifecycle.UnknownToken));
        return Err(Unauthorized), ipOk;
      }
      var token := live.auth.tokens[found.value];
      if token.expiresAt.Some? {
        if token.IsExpiredAt(now) {
          metrics.RecordRequest(token.name, route, Lifecycle.RefusalText(Lifecycle.LapsedToken));
          return Err(TokenExpired), ipOk;
        }
      }
      var ceilings := Ceilings(token.EffectiveMaxVouchers(live.limits), token.EffectiveMaxValidity(live.limits));
      caller := Ok(Caller(token, ceilings));
    }
  }
}
