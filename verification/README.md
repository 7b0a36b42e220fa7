# unifi-voucher-proxy: a verified model

unifi-voucher-proxy stands between voucher clients and a UniFi console. It identifies each request
by an API token, checks scope, site, budget and ceilings, forwards one of four named operations, and
counts what happened; a SIGHUP replaces tokens, limits and budgets while requests are in flight.
This project models that behaviour in Dafny 4.11 and proves properties of it.

    dafny verify dfyconfig.toml

## How the model is laid out

- **The machine** (`Lifecycle`): any number of requests, GraphQL resolvers, reloads, console answers
  and clock ticks interleave. A step is one atomic access to the cache, a limiter, the configuration
  pointer or a console; a request's last step also bumps its counters, which no other step reads. A
  run is a list of actions (`Reaches`). On top of it: `Authenticity` (who a request is), `Generations`
  (which configurations it sees, and reloads), `Sends` (what reaches the consoles), `Quota` (what a
  budget is worth), `Conservation` (vouchers end to end), `Simulation` (GraphQL reaches no further than
  REST; with `Correspondence`, how the two runs compare, and `CallSteps` and `RequestSteps`, one step of
  each), `Counts` and `Workload` (counters and password verifications). `Ledger` sums over the calls
  of a run; `Sums` sums over maps.
- **The code's own form**: `Auth.Authenticator`, `RateLimit.RateLimits`, `Metrics.Metrics`,
  `Console.Console`, `ProxyState.Live`, `ProxyState.AppState`, the handlers in `Routes` and the
  resolvers in `Graphql` are classes and methods that update their fields, each proved against a
  function of the old state. `Operations` holds the specification both front ends meet.
- **The bridge**: `Uninterrupted` proves that any run can go on with the steps of one request, or one
  call, alone, and that it then does what the extractor, the handler or the resolver does.
- **Text and arithmetic**: `Metrics` (printing and reading the Prometheus text format 0.0.4),
  `Upstream` (paths, ids, messages, hosts), `Policy` (bodies and ceilings), `Fingerprint` and `Tls`
  (pins), `Strength` (self-chosen keys), `Config` (validation and effective limits).

## What is assumed

Every assumption is a named predicate in a `requires`, or a parameter of the model.

- `Auth.CollisionFree`: no presented text shares a digest with a text that the scan resolves
  differently. An injective digest gives it (`Auth.InjectiveDigestIsCollisionFree`), and it is exactly
  what the memo needs (`Auth.MemoAgreesExactlyWithoutCollisions`). Only the statements that say "the
  text itself matches" use it, and only for the generation concerned; every other result holds without.
- `Auth.OneTextPerHash`: a stored hash accepts at most one text. Used only to bound the cache.
- `RateLimit.Honest` and `RateLimit.SweepsOnlyFresh`: a limiter admits at most its allowance for the
  time between two admissions, and a sweep drops only states that behave like new ones. A token
  bucket meets both (`RateLimit.TokenBucketIsHonest`, `RateLimit.TokenBucketSweepsOnlyFresh`).
- The clock does not run backwards, and the proxy is the only client of the consoles it is configured
  with. Which console an address reaches, and whether that console accepts the key given, is fixed for
  each controller configuration (`Lifecycle.World`); a reload may change both.

## Where the code does less than its comments say

The model follows the code.

- `src/state.rs:22-24` says a request sees one whole configuration. The extractor and the handler load
  it separately, so one request may see two: `Generations.OneRequestMaySeeTwoConfigurations` builds
  the run, `Generations.OneConfigurationExactlyWithoutReload` gives the exact condition over every
  run, and `Generations.GenerationsNeverDecrease` and `Generations.LoadsNeverGoBack` say what remains
  true.
- `src/config.rs:258-266` lets a token tighten the global rate. A token that writes 0 becomes
  unlimited: `Config.RateMayRise`, and exactly then: `Config.RateRisesExactlyForZero`.
- `src/ratelimit.rs:24-28` gives each token its own limiter, and an unlimited token none. Limiters are
  keyed by name and names need not be unique: `RateLimit.SharedNameSharesBudget` shows the failure for
  every list with such a pair, and `RateLimit.OwnLimitersExactlyWithOwnNames` that the promise is kept
  exactly when no limited token shares its name.
- A caller read before a reload is charged at the new limiters, which start full; a name they do not
  hold is never refused (`Quota.UnlistedNamesPass`). Budgets are therefore stated per generation, and
  added up over all generations in `Quota.ReloadsAreBudgeted`. A window counts charges, and the vouchers
  they ask for, by the time of the charge; the message may be sent later.
- A REST handler counts an upstream call even when it refused; a resolver counts one only on success.
  `Operations.ResolversSimulateHandlers` states the difference exactly.
- The deserializer behind the "closed" body also accepts the seven values positionally, in an array,
  and nothing else that is not an object: `Policy.PositionalBodyIsAccepted`.
- `src/config.rs:136-138` and `src/upstream.rs:211-218` read the scheme of a host differently, one in any
  case, the other in lower case and after removing slashes from the end.
  `Config.PlaintextIsAgreedExactly` says for which hosts they agree on what is plaintext. The others
  come in two kinds, which pass validation when plaintext is allowed: `http://` with a capital
  (`Config.MixedCaseSchemeIsNotRecognised`: `Http://console` becomes `https://Http://console`), and
  `http://` with nothing but slashes after it (`Config.BareSchemeIsLost`: it becomes `https://http:`).

## Model

| member | source | states |
|---|---|---|
| Sends.EverySendIsLicensed | src/state.rs:155-221 | In every interleaving each message sent has its own earlier charge, shared with no other message, at the same generation; its sender's presented text is resolved by a published generation to a token that had no expiry, or one still to come when checked, and that holds the scope of the very operation on the wire (sites:read, vouchers:read, vouchers:create, vouchers:revoke) and the site it names; ids on the wire are safe and a create is within that token's ceilings |
| Sends.OneSendPerCharge | src/state.rs:134-141 | Two messages with one charge are one message |
| Sends.TrailsHold | src/routes.rs:185-347 | In every run each call's stage agrees with the trace: charge before send before answer, each at most once, and an event belongs to the call that remembers it |
| Authenticity.AuthenticationIsTheScan | src/auth.rs:123-152 | Under every interleaving of lookups, scans, inserts and reloads: whoever is turned away as unknown matches no token of the generation it was looked up in; whoever is identified is the first match of a text with its digest and, without collisions, its own first match; every cached index is in range and then the first match of every text with that digest |
| Authenticity.CachesStayBounded | src/auth.rs:90-96 | No generation's cache ever holds more entries than it has tokens |
| Authenticity.CallersAreWhole | src/state.rs:199-220 | A caller's token and ceilings come from one published generation, and the token had no expiry or one later than the time it was checked at |
| Authenticity.OnlyLapsedTokensExpire | src/state.rs:201-214 | In every run, whoever is turned away for an expired token presented a text that is resolved, at the generation that was loaded, to a token of that name whose expiry had come |
| Authenticity.ReloadsCountGenerations | src/main.rs:378-391 | The reload counter is one behind the published generations exactly while a stored reload is not yet counted |
| Generations.RefusedReloadsLeaveNoTrace | src/state.rs:77-93 | From every run the refused reloads can be left out: what remains is a run that ends in the same state, but for the counter of failures, which counts exactly them |
| Generations.GenerationsNeverDecrease | src/routes.rs:185-188 | A handler never works with an older configuration than its caller's, and only with published ones |
| Generations.OneConfigurationExactlyWithoutReload | src/state.rs:22-24 | In every run a call works with the configuration its caller was read in if and only if none was published between the extractor's load and the handler's, which comes later |
| Generations.LoadsNeverGoBack | src/graphql.rs:138-142 | Of any two handlers' or resolvers' loads in a run the later never sees an older configuration, and both see the same exactly when none was published in between |
| Generations.OneRequestMaySeeTwoConfigurations | src/state.rs:162 | For every proxy that knows some token there is a run in which one request sees two configurations |
| Quota.WindowsAreBudgeted | src/ratelimit.rs:74-79 | In every run and every window, charges let through for a limited name at one generation are at most the limiter's allowance, and vouchers asked for at most that times the largest ceiling a caller of that name can have |
| Quota.ReloadsAreBudgeted | src/ratelimit.rs:24-28 | In every run and every window, over all generations that limit a name, its charges let through are at most the sum of the allowances, and vouchers asked for at most that times the largest ceiling; where all generations limit the name, these are all its charges |
| Quota.TokenIsBudgeted | src/config.rs:246-266 | In every run, at a generation with unique names, the vouchers asked for in a window by callers identified and charged there are at most the allowance times the smaller of the token's and the global ceiling |
| Quota.CountersAreBudgeted | src/routes.rs:372-376 | Over any run, reloads included, a voucher counter never exceeds that name's charges times the largest ceiling it ever had |
| Quota.UnlistedNamesPass | src/ratelimit.rs:74-79 | In every run a call is refused for rate only if some token of its name is limited in the generation it was charged at |
| Conservation.VouchersAreConserved | src/bin/fake_controller.rs:165-239 | In every run, reloads to other consoles included: on each console stored + deleted = made and ids are distinct across sites and below the counter; for each token and for all, vouchers made = counted + lost replies + still on their way; no console's own range check ever fires |
| Conservation.WhenQuietTheCountersTell | src/routes.rs:366-376 | When every call is recorded, what all consoles store and what was deleted from them is what was counted and what was lost |
| Conservation.ServeKeepsBalance | src/policy.rs:78-84 | The console's answer to any message the proxy prepares fits the request, and its books stay balanced |
| Counts.CountersCountRequests | src/metrics.rs:27-35 | In every run each request counter equals the number of requests that ended under its label, and their total the number that ended |
| Counts.KeysStayBounded | src/state.rs:223-241 | However many paths are asked for, the counters' keys lie in (published names or "-") x 14 actions x 15 outcomes, and their number is bounded by it |
| Counts.LabelsTellApart | src/error.rs:62-73 | No two error kinds, refusals, routes or operations are counted under one label, and no failure as "ok" |
| Counts.LabelsAreSpelled | src/error.rs:62-73 | The labels that outcomes and refusals are counted under |
| Workload.VerificationsAreBounded | src/auth.rs:133-144 | In every run a generation's verifications are exactly its tokens times the requests that scanned it, at most its tokens times the requests its address check admitted, and no request is scanned twice |
| Uninterrupted.UninterruptedCallIsTheHandler | src/routes.rs:351-389 | Every run can go on with the steps of one call and no others until it is recorded; it has then sent, spent, ended and counted as the handler (or resolver) does |
| Uninterrupted.UninterruptedRequestIsTheExtractor | src/state.rs:158-221 | Every run can go on with the steps of one request and no others until it has a caller or is refused and counted, as the extractor decides with its cache and, without collisions, without it |
| Simulation.DocumentIsMatchedByHandlers | src/graphql.rs:1-13 | Take any run, and REST requests unknown to it that present a document's token and ask what its resolvers ask. However the resolvers interleave with each other, other requests, reloads and consoles, there is a run in which those requests come in and are identified with the document and their handlers take the resolvers' steps; it ends with the same consoles, caches, limiters, voucher counters and messages, and the document itself calls nothing in it |
| Simulation.EveryDocumentIsMatched | src/graphql.rs:3-6 | For every document in every run there are such requests, and so such a run |
| Simulation.ResolverAndHandlerAgree | src/graphql.rs:138-252 | In the matching run each handler was charged at the same generation and time, sent the same message, got the same answer and ended with the same error kind as its resolver |
| Operations.ResolversSimulateHandlers | src/graphql.rs:1-13 | For one caller, in whatever order resolvers run, whatever others spend or publish in between and whatever comes back: REST handlers observing the same generations send the same messages, leave every generation's limiters, the error kinds and the voucher counts the same; the exact difference in the other counters |
| Operations.AttemptDecides | src/routes.rs:280-299 | Without the operation's own scope or the site it names: forbidden, nothing spent, nothing sent; with both, the budget is spent exactly when the limiter agrees, and something is sent exactly when ids and request are acceptable too; what is sent means what was asked |
| Access.PreparedExactlyWhenAcceptable | src/policy.rs:44-96 | A message is prepared if and only if ids are safe and a create is understood and within its ceilings, and it says what was asked; it is forbidden exactly when past a ceiling, and any other fault is a bad request |
| Graphql.DocumentSimulatesRest | src/graphql.rs:101-113 | Every document, with whatever others do around it, has a REST form with the same sends, budgets, failures and vouchers |
| Graphql.EveryFieldHasARestForm | src/graphql.rs:3-6 | No resolver can ask for anything a REST request cannot, and each input field means the request field of its name |
| Graphql.Execute | src/routes.rs:123-159 | A document leaves the state its resolvers leave in that order, each against the generation running by then, and is counted once, "ok" exactly when none failed |
| Graphql.Sites | src/graphql.rs:138-153 | The resolver meets the one specification of an operation; it sends only for a holder of sites:read, refuses anybody else, and counts an upstream call only on success |
| Graphql.Vouchers | src/graphql.rs:156-179 | The same for listing vouchers, with vouchers:read and the site |
| Graphql.CreateVouchersResolver | src/graphql.rs:187-221 | The same for creating, with vouchers:create and the site, counting the vouchers asked for under the caller's name on success and none otherwise |
| Graphql.RevokeVoucher | src/graphql.rs:224-252 | The same for revoking, with vouchers:revoke and the site |
| Routes.Charge | src/state.rs:134-141 | One unit of the caller's own budget, or a rate-limit error and nothing spent |
| Routes.Finish | src/routes.rs:351-389 | Every exit counts one request under its outcome and one upstream call; vouchers only for a successful create |
| Routes.ListSitesHandler | src/routes.rs:185-214 | The handler meets the specification of an operation, sends only for a holder of sites:read and refuses anybody else, and counts every exit as sites:list and one upstream call |
| Routes.ListVouchersHandler | src/routes.rs:236-267 | The same for listing vouchers, with vouchers:read and the site |
| Routes.CreateVouchersHandler | src/routes.rs:269-314 | The same for creating, with vouchers:create and the site, counting the vouchers asked for on success and none otherwise |
| Routes.DeleteVoucherHandler | src/routes.rs:316-347 | The same for deleting, with vouchers:revoke and the site |
| ProxyState.Live.Build | src/state.rs:33-43 | A generation is built exactly when its console can be connected to and the libraries take it; it then holds that configuration's tokens, limits and connection, an empty cache and fresh limiters |
| ProxyState.ValidatedConfigConnects | src/upstream.rs:30-47 | A validated configuration always yields a connection: below the API's address on its host, over TLS unless plaintext was allowed, with its own key, pinned when pins are given and unchecked only when asked |
| ProxyState.AppState.Reload | src/state.rs:82-93 | A reload succeeds if and only if there is a path, the file can be read, it validates and it builds; each error has its own cause; a failure leaves the very same object, a success installs a wholly new one with that configuration |
| ProxyState.AppState.OnHangup | src/main.rs:378-391 | Exactly one of the two reload counters grows: that of successes if and only if there is a path and a file that reads, validates and builds |
| ProxyState.AppState.Extract | src/state.rs:158-221 | Address check, token, expiry in that order against one generation, each with its own error; an identified token gets a caller if and only if it has no expiry or one still to come, and is answered as expired otherwise; each refusal counted once under the route pattern; nothing verified before the address check passes |
| ProxyState.MemoIdentifiesLikeTheScan | src/auth.rs:123-152 | With the memo or without it a request is identified alike |
| Auth.Authenticator.Authenticate | src/auth.rs:123-152 | The memoised answer and the new cache; without collisions the scan's answer; a hit verifies nothing, a miss every token once |
| Auth.MemoAgreesExactlyWithoutCollisions | src/auth.rs:90-96 | The memo agrees with the scan on every sequence of texts if and only if there is no collision |
| Auth.CacheIsBounded | src/auth.rs:95-96 | Justified caches are no larger than the token list |
| Auth.RacingInsertsAgree | src/auth.rs:146-151 | Racing inserts for one digest write the same entry |
| Auth.FirstMatch | src/auth.rs:135-146 | The result matches, and nothing before it does |
| Strength.AssessStrength | src/auth.rs:41-80 | Fewer than 16 characters, then fewer than 8 different ones, then too little entropy (only digits and fewer than 25, or one case of letters and fewer than 18); anything else is accepted |
| Strength.StrengthInPlainTerms | src/auth.rs:41-80 | The bound on entropy is that on length: 25 for digits only, 18 for lower-case letters only or upper-case letters only, no further test for any other key |
| Strength.StrongStaysStrong | src/auth.rs:41-80 | Appending characters never makes an accepted key unacceptable |
| Strength.PoolIsNeverEmpty | src/auth.rs:49-61 | The pool of a non-empty key is never 0 |
| RateLimit.RateLimits.FromConfig | src/ratelimit.rs:38-56 | One fresh limiter per name with a non-zero effective rate |
| RateLimit.RateLimits.Check | src/ratelimit.rs:74-79 | A name without a limiter passes; otherwise its own limiter answers and remembers what it lets through, and no other changes |
| RateLimit.RateLimits.CheckIp | src/ratelimit.rs:63-71 | Sweeps on every 1024th check; the store, the counter and the answer are those of the whole sequence of checks so far |
| RateLimit.WindowBound | src/ratelimit.rs:24-28 | In any window no more is admitted than the allowance of its width |
| RateLimit.SweepsExactly | src/ratelimit.rs:67-69 | After any sequence of checks, past the 32-bit wrap: exactly one sweep per 1024 checks was made, and at most 1024 keys are in the store that the last sweep did not leave there |
| RateLimit.AnswersAsUnswept | src/ratelimit.rs:63-71 | Every answer in any sequence of checks is the one a store never swept would give |
| RateLimit.LimiterOfToken | src/ratelimit.rs:38-48 | With unique names a token has a limiter, its own, if and only if its effective rate is not 0 |
| RateLimit.NameIsLimitedExactly | src/ratelimit.rs:38-48 | For every list of tokens a name has a limiter exactly when some token of that name is limited, and it is the last such token's |
| RateLimit.SharedNameSharesBudget | src/ratelimit.rs:40-47 | In every list, two tokens of one name, one of them limited, share one limiter: a charge to either is felt by the other |
| RateLimit.OwnLimitersExactlyWithOwnNames | src/ratelimit.rs:24-28 | Each limited token has its own limiter, each unlimited one none, and no charge is felt by another token, if and only if no limited token shares its name |
| RateLimit.TokenBucketIsHonest | src/ratelimit.rs:45 | The assumption on limiters can be met |
| RateLimit.TokenBucketSweepsOnlyFresh | src/ratelimit.rs:68 | The assumption on sweeps can be met |
| Metrics.Metrics.Render | src/metrics.rs:63-129 | The page splits into its lines and both maps read back exactly, whatever token names contain, and so do the plain numbers |
| Metrics.Metrics.RecordRequest | src/metrics.rs:27-35 | Exactly its own counter grows, by one |
| Metrics.Metrics.RecordVouchersCreated | src/metrics.rs:39-46 | Exactly its own counter grows, by the count |
| Metrics.DocumentReadsBack | src/metrics.rs:63-129 | For every order of keys and every other content, the printed maps read back |
| Metrics.NumbersReadBack | src/metrics.rs:63-129 | The tokens, upstream calls, reloads and failed reloads on the page read back under their own names |
| Metrics.EscapeIsOnePass | src/metrics.rs:135-140 | The three chained replacements equal one pass |
| Metrics.ReadQuotedEscape | src/metrics.rs:135-140 | Escaping has a left inverse |
| Metrics.RequestLineIsRead | src/metrics.rs:76-86 | A request line reads back, and not as a voucher line |
| Metrics.LinesOfUnlines | src/metrics.rs:63-129 | Every raw newline of the page is a line end |
| Console.Console.CreateVouchers | src/bin/fake_controller.rs:165-219 | Issues exactly the vouchers ordered, one serial each, after those the site has, or refuses out of range and changes nothing |
| Console.Console.DeleteVoucher | src/bin/fake_controller.rs:221-239 | No voucher with that id is left on that site, every other one is, in its order; no other site changes; reports whether there was one |
| Console.Console.ListVouchers | src/bin/fake_controller.rs:143-163 | The first of the site's vouchers: as many as asked for, 100 unless asked, at most 1000 |
| Console.BareListingIsServed | src/bin/fake_controller.rs:143-163 | Without a page size the console lists the first 100 of the site's vouchers and changes nothing |
| Console.ProxyCallsAreServed | src/bin/fake_controller.rs:100-239 | What the console makes of each of the four calls: with a wrong key nothing changes; a listing changes nothing; a create adds the vouchers ordered; a delete takes away those with the id |
| Console.ForeignBodyIsRead | src/bin/fake_controller.rs:174-187 | What is absent from a body, or of another kind, takes its default |
| Console.CreateKeepsBalance | src/bin/fake_controller.rs:196-214 | What is issued is what was ordered, at the end of the site's list; new ids are distinct from all others; the books balance; other sites are untouched |
| Console.DeleteKeepsBalance | src/bin/fake_controller.rs:228-238 | Removes exactly the one voucher with that id, or none, according to the reply, and leaves the others in order; the books balance |
| Console.ProxyBodyIsRead | src/bin/fake_controller.rs:174-187 | The console reads from the proxy's body the very request that was enforced |
| Upstream.CallRoundTrip | src/upstream.rs:49-82 | The parser recovers operation, site and voucher from method and path |
| Upstream.CallsOnTheWire | src/upstream.rs:49-82 | Method and path of the four calls, written out |
| Upstream.CallsAreDistinct | src/upstream.rs:49-82 | Two operations have the same call only if they are the same |
| Upstream.ParsedCallIsBuilt | src/upstream.rs:49-82 | Whatever the parser accepts is what the builder builds |
| Upstream.BarePathSplits | src/upstream.rs:53-82 | A path splits into exactly the expected segments |
| Upstream.PathsCannotEscape | src/upstream.rs:223-238 | Dot-segment removal (section 5.2.4 of RFC 3986) changes no path built from accepted ids |
| Upstream.IdCharsAreUnreserved | src/upstream.rs:223-238 | Id characters are exactly the unreserved ones (section 2.3 of RFC 3986) other than dot and tilde |
| Upstream.ValidateIdAcceptsSafeIds | src/upstream.rs:223-238 | Ids of 1 to 128 letters, digits, hyphens and underscores are accepted and no others |
| Upstream.ClampBoundsAndSettles | src/upstream.rs:197-208 | The cut never falls inside a character; the trimmed text is shown whole up to 200 characters, else its first 200 and an ellipsis; no control character; clamping twice is clamping once |
| Upstream.HostIsPlaintextExactlyWhen | src/upstream.rs:211-218 | The base uses TLS unless the trimmed host starts with a lower-case http:// |
| Upstream.HostIsKept | src/upstream.rs:211-218 | White space around a host and slashes after it are dropped and nothing else; https:// is put before a host without a scheme |
| Upstream.SensitiveBodiesStayHidden | src/upstream.rs:106-148 | For server errors and refused keys the client's message does not depend on the console's body; otherwise it is the clamped message |
| Fingerprint.SpellingIsRead | src/tls.rs:17-34 | Every spelling of a pin reads as that pin |
| Fingerprint.OnlySpellingsAreRead | src/tls.rs:18-34 | Nothing but a spelling of a pin is read |
| Fingerprint.DocumentedFormsAreRead | src/tls.rs:17-34 | Plain digits, digits in pairs with colons, blanks or hyphens, and either after a prefix, in capitals or not, read as the pin |
| Fingerprint.HexDigitsOf | src/tls.rs:12-15 | A digest is written byte by byte, high digit first, in lower case |
| Fingerprint.NormalizeIsIdempotent | src/tls.rs:18-34 | Normalising twice is normalising once |
| Tls.PinnedAcceptsExactlyThePins | src/tls.rs:53-74 | A certificate is accepted if and only if its digest is among the decoded pins |
| Tls.ValidatedConfigBuildsTls | src/tls.rs:175-207 | A validated configuration builds: a pin list is non-empty and well formed, and nothing goes unchecked unasked |
| Policy.BodyRoundTrip | src/policy.rs:93-96 | Parsing the re-encoded body gives the same request |
| Policy.BodyOnTheWire | src/policy.rs:15-30 | The keys and values of the body that is sent, an absent option absent |
| Policy.ObjectBodyIsRead | src/policy.rs:15-30 | Exactly which objects are read as a request, key by key: defaults of 1, options absent or null, whole non-negative numbers only, no unknown key |
| Policy.CanonicalBody | src/policy.rs:44-47 | Re-encoding is a canonical form with known keys only |
| Policy.EnforceAcceptsExactlyWithin | src/policy.rs:55-91 | Enforcement passes if and only if every bound holds, and refuses as forbidden exactly what is past a ceiling |
| Policy.AcceptedBodiesAreClosed | src/policy.rs:9-16 | An accepted object holds name and minutes and no key but the seven known ones |
| Policy.PositionalBodyIsAccepted | src/policy.rs:15-30 | The array of a request's seven values is accepted and means that request, and a body that is not an object is accepted in that form only |
| Config.ValidatedHostUsesTls | src/config.rs:136-138 | A validated configuration without plaintext reaches the console over TLS |
| Config.ValidatesExactly | src/config.rs:353-401 | A configuration is accepted if and only if every condition of validation holds |
| Config.RefusalHasItsCause | src/config.rs:353-401 | The error of a refused configuration names something that is wrong with it |
| Config.PlaintextIsAgreedExactly | src/config.rs:136-138 | Validation and the address that is built agree on what is plaintext if and only if the host, trimmed, has no http:// in any case, or has it in lower case with something other than slashes after it |
| Config.MixedCaseSchemeIsNotRecognised | src/upstream.rs:211-218 | http:// with a capital: validation takes it for plaintext, the address gets a second scheme, whatever follows |
| Config.BareSchemeIsLost | src/upstream.rs:211-218 | http:// and only slashes: validation takes it for plaintext, the address is https://http: |
| Config.CeilingsNeverRise | src/config.rs:246-258 | The global ceiling applies unless the token's own is smaller |
| Config.RateRisesExactlyForZero | src/config.rs:260-266 | The effective rate is looser than the global one if and only if the token writes 0 under a non-zero global rate |
| Config.RateMayRise | src/config.rs:260-266 | A concrete token and configuration for which it is |

## Left out

- Routing, body extraction and its rejections, cancelled handlers: foreign code; such requests never finish a handler in the machine.
- TLS handshakes, WebPKI, HTTP and timeouts: a sent message is answered, or nobody hears the answer.
- The internals of the limiter library, Argon2, SHA-256 and the atomic pointer: parameters and the assumptions above.
- The per-address answer is a free choice in the machine; its arithmetic is proved on `RateLimit.RateLimits.CheckIp`.
- Simulation.DocumentIsMatchedByHandlers: does not say that the address budget lasts for the stand-ins; each is a request of its own at the address check and is answered there as the document is.
- Reading the token from the headers: the presented text is an input.
- Loading and merging configuration files and the environment; what they hold is an input of `ProxyState.AppState.Reload`.
- Concurrent checks of addresses: the counter, the sweep and the check are taken as one step, so that a check running between another's count and its sweep is not modelled.
- Unbounded counters: the 64-bit counters and the console's 64-bit serial are not modelled as wrapping; the 32-bit sweep counter is.
- Concurrency inside the classes: methods run alone; interleavings are the machine's, and `Uninterrupted` connects the two.
- Metrics.Metrics.Render: does not model the order of keys (it holds for every order), and takes the printed seconds and the version as given lines.
- Strength.AssessStrength: compares in integers where the code compares logarithms in floating point; the two differ only within rounding of 2^80, which no pool and length meets.
- Routes.Finish: takes elapsed time as an input, and leaves out the audit record.
- ProxyState.AppState.Extract: leaves out the audit record and the text of the expiry error.
- What a successful reply contains for the client (filtered sites, voucher fields), and the texts of errors other than the console's.
- The wording of connection errors: a pattern match on library texts, all of one error kind.
- Depth and complexity limits, batching and introspection of GraphQL documents.
- Graphql.Execute: runs resolvers one after another, in every order and with others at work in between; resolvers that overlap are the machine's (`Simulation`). The counters that others bump meanwhile are left out.
- Operations.ResolversSimulateHandlers: takes the generation each handler observed as given, not from a load of its own; that is the machine's.
- Listings with a page size other than the proxy's and the default.
- Command-line tools, warnings, health check, generated keys and capture of a console's fingerprint: only easy members.
