/** The proxy's configuration: what a token grants, and what is refused before serving. */
module Config {
  import opened Wrappers
  import opened Text
  import Fingerprint
  import Upstream

  datatype Scope = SitesRead | VouchersRead | VouchersCreate | VouchersRevoke

  datatype Limits = Limits(
    maxVouchersPerRequest: u32,
    maxValidityMinutes: u64,
    rateLimitPerMinute: u32,
    rateLimitPerIpPerMinute: u32)

  datatype TokenConfig = TokenConfig(
    name: string,
    hash: string,
    sites: seq<string>,
    scopes: seq<Scope>,
    maxVouchersPerRequest: Option<u32>,
    maxValidityMinutes: Option<u64>,
    rateLimitPerMinute: Option<u32>,
    expiresAt: Option<int>)
  {
    predicate AllowsSite(site: string) { "*" in sites || site in sites }

    predicate HasScope(scope: Scope) { scope in scopes }

    predicate IsExpiredAt(now: int) { expiresAt.Some? && now >= expiresAt.value }

    function EffectiveMaxVouchers(global: Limits): u32 {
      match maxVouchersPerRequest
      case None => global.maxVouchersPerRequest
      case Some(v) => if v < global.maxVouchersPerRequest then v else global.maxVouchersPerRequest
    }

    function EffectiveMaxValidity(global: Limits): u64 {
      match maxValidityMinutes
      case None => global.maxValidityMinutes
      case Some(v) => if v < global.maxValidityMinutes then v else global.maxValidityMinutes
    }

    function EffectiveRateLimit(global: Limits): u32 {
      match rateLimitPerMinute
      case None => global.rateLimitPerMinute
      case Some(t) =>
        if global.rateLimitPerMinute == 0 then t
        else if t < global.rateLimitPerMinute then t
        else global.rateLimitPerMinute
    }
  }

  datatype TlsConfig = TlsConfig(
    fingerprints: Option<seq<string>>,
    insecureSkipVerify: bool,
    allowPlaintext: bool)

  datatype ControllerConfig = ControllerConfig(host: string, apiKey: string, tls: TlsConfig) {
    /** Judged without regard to case, on the trimmed host. */
    predicate IsPlaintext() { Upstream.HTTP <= LowerAll(Trim(host)) }
  }

  datatype Config = Config(controller: ControllerConfig, limits: Limits, tokens: seq<TokenConfig>)

  datatype ConfigError =
    | EmptyApiKey
    | NoTokens
    | UnnamedToken
    | NotAnArgon2Hash(name: string)
    | NoScopes(name: string)
    | PinAndSkip
    | PlaintextHost
    | EmptyPinList
    | BadPin

  function ValidateToken(t: TokenConfig): Option<ConfigError> {
    if Trim(t.name) == [] then Some(UnnamedToken)
    else if !("$argon2" <= t.hash) then Some(NotAnArgon2Hash(t.name))
    else if t.scopes == [] then Some(NoScopes(t.name))
    else None
  }

  /** The first token that is refused decides. */
  function ValidateTokens(tokens: seq<TokenConfig>): Option<ConfigError> {
    if tokens == [] then None
    else if ValidateToken(tokens[0]).Some? then ValidateToken(tokens[0])
    else ValidateTokens(tokens[1..])
  }

  predicate AllPinsReadable(pins: seq<string>) {
    forall i :: 0 <= i < |pins| ==> Fingerprint.NormalizeFingerprint(pins[i]).Ok?
  }

  function Validate(cfg: Config): Result<(), ConfigError> {
    var tls := cfg.controller.tls;
    if cfg.controller.apiKey == [] then Err(EmptyApiKey)
    else if cfg.tokens == [] then Err(NoTokens)
    else if ValidateTokens(cfg.tokens).Some? then Err(ValidateTokens(cfg.tokens).value)
    else if tls.insecureSkipVerify && tls.fingerprints.Some? then Err(PinAndSkip)
    else if cfg.controller.IsPlaintext() && !tls.allowPlaintext then Err(PlaintextHost)
    else if tls.fingerprints == Some([]) then Err(EmptyPinList)
    else if tls.fingerprints.Some? && !AllPinsReadable(tls.fingerprints.value) then Err(BadPin)
    else Ok(())
  }

  // ----- what a token may tighten -----

  /** A token can only lower the ceilings: the global value applies unless the token's own is smaller. */
  lemma CeilingsNeverRise(t: TokenConfig, global: Limits)
    ensures t.EffectiveMaxVouchers(global) <= global.maxVouchersPerRequest
    ensures t.maxVouchersPerRequest.None? ==> t.EffectiveMaxVouchers(global) == global.maxVouchersPerRequest
    ensures t.maxVouchersPerRequest.Some? ==>
              t.EffectiveMaxVouchers(global) <= t.maxVouchersPerRequest.value
              && t.EffectiveMaxVouchers(global) in {t.maxVouchersPerRequest.value, global.maxVouchersPerRequest}
    ensures t.EffectiveMaxValidity(global) <= global.maxValidityMinutes
    ensures t.maxValidityMinutes.None? ==> t.EffectiveMaxValidity(global) == global.maxValidityMinutes
    ensures t.maxValidityMinutes.Some? ==>
              t.EffectiveMaxValidity(global) <= t.maxValidityMinutes.value
              && t.EffectiveMaxValidity(global) in {t.maxValidityMinutes.value, global.maxValidityMinutes}
  {
  }

  /** Rates are ordered with 0 as the loosest, because 0 means no limiter. */
  predicate AtLeastAsStrict(rate: u32, than: u32) {
    than == 0 || (rate != 0 && rate <= than)
  }

  /** A token that writes 0 is unlimited even under a global rate; every other token is bound by it.
      What applies is never stricter than both configured values: it is one of them. */
  lemma RateRisesExactlyForZero(t: TokenConfig, global: Limits)
    ensures t.EffectiveRateLimit(global) == global.rateLimitPerMinute || t.rateLimitPerMinute == Some(t.EffectiveRateLimit(global))
    ensures t.rateLimitPerMinute.None? ==> t.EffectiveRateLimit(global) == global.rateLimitPerMinute
    ensures AtLeastAsStrict(t.EffectiveRateLimit(global), global.rateLimitPerMinute)
            <==> global.rateLimitPerMinute == 0 || t.rateLimitPerMinute != Some(0)
    ensures t.rateLimitPerMinute.Some? ==> AtLeastAsStrict(t.EffectiveRateLimit(global), t.rateLimitPerMinute.value)
  {
  }

  lemma RateMayRise() returns (t: TokenConfig, global: Limits)
    ensures global.rateLimitPerMinute == 60 && t.EffectiveRateLimit(global) == 0
  {
    global := Limits(10, 43200, 60, 120);
    t := TokenConfig("display", "$argon2id$", ["*"], [SitesRead], None, None, Some(0), None);
  }

  // ----- what validation asks -----

  /** The conditions on one token. */
  ghost predicate IsUsableToken(t: TokenConfig) {
    Trim(t.name) != [] && "$argon2" <= t.hash && t.scopes != []
  }

  lemma {:induction false} TokensValidateExactly(tokens: seq<TokenConfig>)
    ensures ValidateTokens(tokens).None? <==> forall i :: 0 <= i < |tokens| ==> IsUsableToken(tokens[i])
  {
    if tokens != [] {
      TokensValidateExactly(tokens[1..]);
      assert tokens == [tokens[0]] + tokens[1..];
      assert ValidateToken(tokens[0]).None? <==> IsUsableToken(tokens[0]);
    }
  }

  /** A configuration is accepted exactly when it has a key, tokens that each have a name, an Argon2
      hash and a scope, one way of judging the certificate at most, no `http://` unless plaintext is
      allowed, and a pin list, if any, with pins in it that can all be read. */
  lemma ValidatesExactly(cfg: Config)
    ensures var tls := cfg.controller.tls;
            Validate(cfg).Ok? <==>
              && cfg.controller.apiKey != []
              && cfg.tokens != []
              && (forall i :: 0 <= i < |cfg.tokens| ==> IsUsableToken(cfg.tokens[i]))
              && !(tls.insecureSkipVerify && tls.fingerprints.Some?)
              && ("http://" <= LowerAll(Trim(cfg.controller.host)) ==> tls.allowPlaintext)
              && (tls.fingerprints.Some? ==>
                    && |tls.fingerprints.value| > 0
                    && forall i :: 0 <= i < |tls.fingerprints.value| ==> Fingerprint.NormalizeFingerprint(tls.fingerprints.value[i]).Ok?)
  {
    TokensValidateExactly(cfg.tokens);
  }

  /** The error names something that is wrong. */
  lemma {:induction false} TokenErrorHasItsCause(tokens: seq<TokenConfig>)
    requires ValidateTokens(tokens).Some?
    ensures match ValidateTokens(tokens).value
            case UnnamedToken => exists i :: 0 <= i < |tokens| && Trim(tokens[i].name) == []
            case NotAnArgon2Hash(name) => exists i :: 0 <= i < |tokens| && tokens[i].name == name && !("$argon2" <= tokens[i].hash)
            case NoScopes(name) => exists i :: 0 <= i < |tokens| && tokens[i].name == name && tokens[i].scopes == []
            case _ => false
  {
    if ValidateToken(tokens[0]).Some? {
      assert tokens[0] in tokens;
    } else {
      TokenErrorHasItsCause(tokens[1..]);
      assert forall i :: 0 <= i < |tokens[1..]| ==> tokens[1..][i] == tokens[i + 1];
    }
  }

  lemma RefusalHasItsCause(cfg: Config)
    requires Validate(cfg).Err?
    ensures var tls, tokens := cfg.controller.tls, cfg.tokens;
            match Validate(cfg).error
            case EmptyApiKey => cfg.controller.apiKey == []
            case NoTokens => tokens == []
            case UnnamedToken => exists i :: 0 <= i < |tokens| && Trim(tokens[i].name) == []
            case NotAnArgon2Hash(name) => exists i :: 0 <= i < |tokens| && tokens[i].name == name && !("$argon2" <= tokens[i].hash)
            case NoScopes(name) => exists i :: 0 <= i < |tokens| && tokens[i].name == name && tokens[i].scopes == []
            case PinAndSkip => tls.insecureSkipVerify && tls.fingerprints.Some?
            case PlaintextHost => "http://" <= LowerAll(Trim(cfg.controller.host)) && !tls.allowPlaintext
            case EmptyPinList => tls.fingerprints == Some([])
            case BadPin => tls.fingerprints.Some? && exists i :: 0 <= i < |tls.fingerprints.value| && Fingerprint.NormalizeFingerprint(tls.fingerprints.value[i]).Err?
  {
    if ValidateTokens(cfg.tokens).Some? { TokenErrorHasItsCause(cfg.tokens); }
  }

  // ----- what validation guarantees downstream -----

  lemma LowerOfLower(s: string, p: string)
    requires p <= s && LowerAll(p) == p
    ensures p <= LowerAll(s)
  {
    assert forall i :: 0 <= i < |p| ==> LowerAll(s)[i] == Lower(p[i]) == LowerAll(p)[i];
  }

  /** A validated configuration reaches the console over TLS unless plaintext was allowed in so many words. */
  lemma ValidatedHostUsesTls(cfg: Config)
    requires Validate(cfg).Ok? && !cfg.controller.tls.allowPlaintext
    ensures Upstream.HTTPS <= Upstream.NormalizeHost(cfg.controller.host)
  {
    var t := Trim(cfg.controller.host);
    var h := TrimEndOf(t, '/');
    TrimEndOfSplits(t, '/');
    Upstream.HostIsPlaintextExactlyWhen(cfg.controller.host);
    if Upstream.HTTP <= h { HttpIsPlaintext(t); }
  }

  /** Validation and the address built from a host mean the same by plaintext exactly when the trimmed
      host has no `http://` in any case, or has it in lower case with something other than slashes after it. */
  lemma PlaintextIsAgreedExactly(c: ControllerConfig)
    ensures var t := Trim(c.host);
            (c.IsPlaintext() <==> !(Upstream.HTTPS <= Upstream.NormalizeHost(c.host)))
            <==> !(Upstream.HTTP <= LowerAll(t) && (!(Upstream.HTTP <= t) || forall i :: 7 <= i < |t| ==> t[i] == '/'))
  {
    var t := Trim(c.host);
    TrimEndOfKeepsExactly(t, Upstream.HTTP, '/');
    Upstream.HostIsPlaintextExactlyWhen(c.host);
    if Upstream.HTTP <= t { HttpIsPlaintext(t); }
  }

  lemma HttpIsPlaintext(t: string)
    requires Upstream.HTTP <= t
    ensures Upstream.HTTP <= LowerAll(t)
  {
    assert LowerAll(Upstream.HTTP) == Upstream.HTTP;
    LowerOfLower(t, Upstream.HTTP);
  }

  /** A scheme that is `http://` but for its case is neither of the two that are recognised. */
  lemma SpelledOtherwise(scheme: string, t: string, h: string)
    requires LowerAll(scheme) == Upstream.HTTP && scheme != Upstream.HTTP && scheme <= t && h <= t
    ensures Upstream.HTTP <= LowerAll(t)
    ensures !(Upstream.HTTP <= h) && !(Upstream.HTTPS <= h)
  {
    assert |scheme| == 7 && t[..7] == scheme;
    assert forall i :: 0 <= i < 7 ==> LowerAll(t)[i] == LowerAll(scheme)[i];
    assert Lower(t[4]) == ':';
    if |h| >= 7 { assert h[..7] == scheme && h[4] == t[4]; }
  }

  lemma SchemeSurvivesTrimming(scheme: string, rest: string)
    requires LowerAll(scheme) == Upstream.HTTP
    ensures scheme <= Trim(scheme + rest)
  {
    assert |scheme| == 7 && Lower(scheme[0]) == 'h' && Lower(scheme[6]) == '/';
    TrimKeepsBeginning(scheme, rest);
  }

  /** `Http://console` and its like: plaintext for validation, and no scheme at all when the address
      is built, whatever follows. */
  lemma MixedCaseSchemeIsNotRecognised(scheme: string, rest: string, cfg: Config)
    requires Validate(cfg).Ok? && cfg.controller.tls.allowPlaintext
    requires LowerAll(scheme) == Upstream.HTTP && scheme != Upstream.HTTP
    ensures var c := cfg.controller.(host := scheme + rest);
            && Validate(cfg.(controller := c)).Ok? && c.IsPlaintext() && scheme <= Trim(c.host)
            && Upstream.NormalizeHost(c.host) == Upstream.HTTPS + TrimEndOf(Trim(c.host), '/')
  {
    SchemeSurvivesTrimming(scheme, rest);
    var t := Trim(scheme + rest);
    TrimEndOfSplits(t, '/');
    SpelledOtherwise(scheme, t, TrimEndOf(t, '/'));
  }

  /** `http://` with nothing but slashes after it: plaintext for validation, a console named `http:`
      over TLS when the address is built. */
  lemma BareSchemeIsLost(slashes: string, cfg: Config)
    requires Validate(cfg).Ok? && cfg.controller.tls.allowPlaintext
    requires forall i :: 0 <= i < |slashes| ==> slashes[i] == '/'
    ensures var c := cfg.controller.(host := Upstream.HTTP + slashes);
            && Validate(cfg.(controller := c)).Ok? && c.IsPlaintext()
            && Upstream.NormalizeHost(c.host) == "https://http:"
  {
    var host := Upstream.HTTP + slashes;
    TrimKeeps(host);
    HttpIsPlaintext(host);
    TrimEndOfSplits(host, '/');
    var h := TrimEndOf(host, '/');
    assert host[4] == ':' && forall i :: 5 <= i < |host| ==> host[i] == '/';
    assert h == host[..5] == "http:";
  }
}
