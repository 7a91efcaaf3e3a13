# MizbanCloud PHP SDK — a Dafny model of its core

This project models the core of the MizbanCloud PHP SDK, a client library for the MizbanCloud CDN and cloud API. The model has five parts:

- **The shared transport (`HttpClient`).** It holds the session state, which is a bearer token and a response language. For every call it builds the request options: the headers, the timeout, and a query string or a form body. It classifies what came back as either a decoded body or a `MizbanCloudException`.
- **The exception.** It carries a message and a status code. It also carries the raw response and the three validation details read from that response: `fields`, `invalidFields` and `missing_fields`.
- **The facade (`MizbanCloud`).** It builds one transport and binds every resource module to it. It forwards token and language access to that transport.
- **The `Auth` module.** It manages the token and fetches the wallet.
- **The `Cdn` module.** It has 91 operations. Each one is a single transport call whose verb, path and payload are fixed by its arguments.

The network is not modelled as code. It is a parameter `send: (verb, path, options) -> outcome`. Every request method is proved to reply with the classification of what `send` returns for the options built from the session state at call time. Because `send` is a pure function, how many times it is called is not stated.

Files:

| file | module | contents |
|---|---|---|
| `values.dfy` | `Values` | PHP values as decoded from JSON. It also defines `isset`, `??`, truthiness and the `? 1 : 0` flag encoding. |
| `exception.dfy` | `Exceptions` | The error value and its constructor. |
| `http_client.dfy` | `Transport` | Request options, outcome classification, and the `HttpClient` class. |
| `paths.dfy` | `Paths` | PHP `int`-to-string interpolation, and paths as segment lists, both with parsers and round-trip proofs. |
| `cdn.dfy` | `CdnApi` | The CDN operation table, the call of each operation, and the `Cdn` class. |
| `auth.dfy` | `Authentication` | The `Auth` class. |
| `facade.dfy` | `Facade` | The `MizbanCloud` class, the bound `Cloud` and `Statics` modules, and the documented token scenarios. |

**Modelling choices.**

- **Classes and state.** The transport is a class whose token and language fields are updated in place. The modules hold read-only references to it, so they are classes with `const` fields. `MizbanCloud.Shared()` states that the facade and every module use the same transport object. It holds for the whole life of the client.
- **`isAuthenticated`.** `src/MizbanCloud.php:116` tests only that the token is not null, so an empty-string token counts as authenticated (`Facade.MizbanCloud.IsAuthenticated`).
- **PHP `strict_types`.** Some decoded bodies make the code raise a PHP `TypeError` rather than a `MizbanCloudException`. Two cases are covered this way:
  - a non-string `message`;
  - a non-array detail key.

  These outcomes are excluded by the type `Transport.Exchange` of what `send` returns. The callers carry no precondition for them.

## Model

| member | source | states |
|---|---|---|
| Values.Coalesce | src/HttpClient.php:120 | `$m[$k] ?? $d` is the stored value exactly when the key is present and not null, and the default otherwise. |
| Values.Flag | src/Modules/Cdn.php:190 | The boolean encoding of every toggle is 1 for true and 0 for false, and nothing else. |
| Exceptions.Detail | src/Exceptions/MizbanCloudException.php:33-35 | A detail is present exactly when a response exists and holds the key with a non-null value, and then it equals that value. |
| Exceptions.NewApiError | src/Exceptions/MizbanCloudException.php:23-36 | The message, status code and response are kept as given. The three details are read from their own keys. Each detail is absent or an array. |
| Exceptions.NoResponseNoDetails | src/Exceptions/MizbanCloudException.php:23-35 | Built from a message alone, the error has status code 0, no response and no details. |
| Exceptions.DetailsIndependent | src/Exceptions/MizbanCloudException.php:33-35 | Changing one detail key of the response never changes the other two details. |
| Exceptions.DetailKeysVerbatim | src/Exceptions/MizbanCloudException.php:34-35 | The keys are matched exactly: `missingFields` and `invalid_fields` are not details, while `missing_fields` and `invalidFields` are. |
| Transport.MessageOr | src/HttpClient.php:120 | The body's `message` is used when it is set. Otherwise the fallback is used. |
| Transport.RequestHeaders | src/HttpClient.php:84-97 | The header names are exactly Accept-Language, plus Authorization when a token is set (the empty token included), plus the caller's headers. Caller headers override the defaults. Authorization is `Bearer <token>`. |
| Transport.BuildOptions | src/HttpClient.php:83-111 | The headers are as above. The timeout is included only when the caller gives one. A GET has no form body and has a query only for non-empty data. Every other verb has no query and sends the data, even empty data, as its form body. |
| Transport.Classify | src/HttpClient.php:113-149 | A body is returned, unchanged, exactly when a response was delivered without `success === false`. A logical failure raises an error with that status, the whole body, and the body's message or "Operation failed". A request failure keeps the failure response's status (0 without a response) and its body, prefers the body's message to the transport's, and reads the three details from that body. Any other transport failure has status 0 and no response. |
| Transport.FalsySuccessIsNotFailure | src/HttpClient.php:118 | A falsy `success` other than `false` itself (0, "", null) is not a failure: the body is returned. |
| Transport.NoResponseMeansStatusZero | src/HttpClient.php:127-149 | Without a response, the error has status 0, the transport's message, and neither a response nor details. |
| Transport.HttpClient.constructor | src/HttpClient.php:23-37 | The base URL defaults to https://auth.mizbancloud.com, the timeout to 30 and the language to "en". There is no token. The default headers are Accept and Accept-Language, with the configured headers merged over them. |
| Transport.HttpClient.SetToken | src/HttpClient.php:42-45 | The token becomes the given one, or none; the language is unchanged. |
| Transport.HttpClient.GetToken | src/HttpClient.php:50-53 | Returns the current token. |
| Transport.HttpClient.SetLanguage | src/HttpClient.php:58-61 | The language becomes the given one; the token is unchanged. |
| Transport.HttpClient.GetLanguage | src/HttpClient.php:66-69 | Returns the current language. |
| Transport.HttpClient.Request | src/HttpClient.php:81-150 | Builds the options step by step. The reply is the classification of what `send` returns for exactly `BuildOptions(token, language, …)`. |
| Transport.HttpClient.Get | src/HttpClient.php:155-158 | A request with verb GET. |
| Transport.HttpClient.Post | src/HttpClient.php:163-166 | A request with verb POST. |
| Transport.HttpClient.Put | src/HttpClient.php:171-174 | A request with verb PUT. |
| Transport.HttpClient.Delete | src/HttpClient.php:179-182 | A request with verb DELETE. |
| Transport.HttpClient.Perform | src/HttpClient.php:155-182 | A module's call goes through the wrapper of its verb, without per-call options. |
| Paths.Digits | src/Modules/Cdn.php:35 | The digits of a natural number are non-empty, all decimal digits, and have no leading zero. |
| Paths.Decimal | src/Modules/Cdn.php:35 | An interpolated id is a non-empty string without `/`. It starts with `0` exactly for 0 and with `-` exactly for negatives, as PHP renders it. |
| Paths.DecimalRoundTrip | src/Modules/Cdn.php:113 | Every interpolated integer, negative ones included, parses back to itself. |
| Paths.DecimalInjective | src/Modules/Cdn.php:113 | Distinct ids give distinct strings. |
| Paths.PathRoundTrip | src/Modules/Cdn.php:113 | A path built from segments without `/` splits back into exactly those segments. |
| Paths.PathAppend | src/Modules/Cdn.php:113 | The path of two concatenated segment lists is the concatenation of their paths. |
| Paths.SegmentPrefix | src/Modules/Cdn.php:35 | A segment is determined by the path text, because it ends at the next `/` or at the end. |
| CdnApi.NgRootIsPath | src/Modules/Cdn.php:27 | The root `/api/v1/cdn/ng` is exactly the path of the segments api, v1, cdn, ng. |
| CdnApi.CdnPath | src/Modules/Cdn.php:27 | Every CDN path starts with `/api/v1/cdn/ng/`. |
| CdnApi.DomainRoot | src/Modules/Cdn.php:35 | A domain's endpoint is `/api/v1/cdn/ng/domains/` followed by the id's decimal form. |
| CdnApi.DomainPath | src/Modules/Cdn.php:61 | A path under a domain is that domain's endpoint or lies below it. |
| CdnApi.DomainPathSplits | src/Modules/Cdn.php:61 | A path under a domain is that domain's endpoint followed by the path of the remaining segments. |
| CdnApi.PurgeCachePayload | src/Modules/Cdn.php:429-437 | The keys are exactly purge_all, urls, tags and prefixes. purge_all is 1 exactly when the input's value is truthy, and 0 otherwise. The other three are copied when present and null when absent. |
| CdnApi.MinifyPayload | src/Modules/Cdn.php:444-451 | The keys are exactly html, css and js. Each is 1 exactly when the setting is present and truthy, and 0 otherwise. |
| CdnApi.PlansQuery | src/Modules/Cdn.php:828-832 | `domain_id` is sent exactly when the id is given and non-zero, and then it is the only key. |
| CdnApi.DomainRoute | src/Modules/Cdn.php:25-96 | The Domains section: every path is under the CDN root; every GET sends no data; every operation with a domain id addresses that domain. |
| CdnApi.DnsRoute | src/Modules/Cdn.php:103-192 | The DNS section: the same three properties, and DNSSEC sends `enabled` as 0/1. |
| CdnApi.SslRoute | src/Modules/Cdn.php:199-334 | The SSL/HTTPS section: the same three properties, and the redirect and HTTP/3 toggles send `enabled` as 0/1. |
| CdnApi.CacheRoute | src/Modules/Cdn.php:341-437 | The Cache section: the same three properties, and the developer-mode, always-online and cache-cookies toggles send `enabled` as 0/1. |
| CdnApi.AccelerationRoute | src/Modules/Cdn.php:444-471 | The Acceleration section: the same three properties, and the image toggles send `enabled` as 0/1. |
| CdnApi.DdosRoute | src/Modules/Cdn.php:478-529 | The DDoS section: the same three properties. |
| CdnApi.FirewallRoute | src/Modules/Cdn.php:536-547 | The Firewall section: the same three properties. |
| CdnApi.WafRoute | src/Modules/Cdn.php:554-611 | The WAF section: the same three properties, and the group and rule switches send `enabled` as 0/1. |
| CdnApi.PageRuleRoute | src/Modules/Cdn.php:618-703 | The Page rules section: the same three properties. |
| CdnApi.ClusterRoute | src/Modules/Cdn.php:710-761 | The Clusters section: the same three properties. |
| CdnApi.LogForwarderRoute | src/Modules/Cdn.php:768-795 | The Log forwarders section: the same three properties. |
| CdnApi.CustomPageRoute | src/Modules/Cdn.php:802-821 | The Custom pages section: the same three properties. |
| CdnApi.PlanRoute | src/Modules/Cdn.php:828-843 | The Plans section: both operations are under the CDN root, and only getPlans is a GET. |
| CdnApi.Route | src/Modules/Cdn.php:25-843 | Every operation's endpoint is under `/api/v1/cdn/ng/`. Every toggle sends `enabled` as 1 for true and 0 for false. Every GET except getPlans carries no data, so it has no query string. |
| CdnApi.RouteAddressesDomain | src/Modules/Cdn.php:33-820 | Every operation that takes a domain id in its path addresses that domain's endpoint or one below it. |
| CdnApi.DomainRootRecoverable | src/Modules/Cdn.php:35 | The domain id can be read back from any path under a domain endpoint. |
| CdnApi.DomainsNeverShareEndpoints | src/Modules/Cdn.php:33-820 | Two operations on different domains never reach the same endpoint, whatever their other arguments. |
| CdnApi.CdnPathSegments | src/Modules/Cdn.php:113 | A CDN path whose segments contain no `/` splits back into `api/v1/cdn/ng` followed by those segments. |
| CdnApi.CdnPathInjective | src/Modules/Cdn.php:113 | Distinct segment lists without `/` give distinct CDN paths. |
| CdnApi.DnsRecordPathInjective | src/Modules/Cdn.php:111-114 | getDnsRecord paths are equal only for the same domain id and record id. |
| CdnApi.ClusterServerPathInjective | src/Modules/Cdn.php:758-761 | removeServerFromCluster paths are equal only for the same domain, cluster and server ids. |
| CdnApi.DeleteRulePathInjective | src/Modules/Cdn.php:692-695 | deleteRule paths are equal only for the same domain id, path id and rule type, even though the rule type may contain `/`. |
| CdnApi.DeleteRulePath | src/Modules/Cdn.php:694 | A deleteRule path is the domain endpoint followed by `/paths/{pathId}/rules/{ruleType}`. |
| CdnApi.RuleSegmentsPath | src/Modules/Cdn.php:694 | The segments paths, {pathId}, rules, {ruleType} form `/paths/{pathId}/rules/{ruleType}`. |
| CdnApi.RuleTailInjective | src/Modules/Cdn.php:694 | The tail `/paths/{pathId}/rules/{ruleType}` determines both the path id and the rule type. |
| CdnApi.PlansQueryString | src/Modules/Cdn.php:828-832 | getPlans is a GET to `/api/v1/cdn/ng/plans`. It has no form body. Its query string is `domain_id` for a non-zero id and absent otherwise. |
| CdnApi.ChangePlanCall | src/Modules/Cdn.php:837-843 | changePlan is a POST to `/api/v1/cdn/ng/plans` whose body is exactly `domain_id` and `plan_id`. |
| CdnApi.Cdn.constructor | src/Modules/Cdn.php:16-18 | The module is bound to the given transport. |
| CdnApi.Cdn.Perform | src/Modules/Cdn.php:25-843 | Every operation is one transport call with the operation's verb, path and payload and the session's token and language. Its reply is the classification of what came back. |
| Authentication.Auth.constructor | src/Modules/Auth.php:16-18 | The module is bound to the given transport. |
| Authentication.Auth.SetApiToken | src/Modules/Auth.php:24-27 | The shared token becomes the given string; the language is unchanged. |
| Authentication.Auth.GetApiToken | src/Modules/Auth.php:32-35 | Returns the shared token. |
| Authentication.Auth.ClearApiToken | src/Modules/Auth.php:40-43 | The shared token becomes absent; the language is unchanged. |
| Authentication.Auth.GetWallet | src/Modules/Auth.php:50-53 | One GET of `/api/admin-temp-v1/financial/wallet` with no data and no per-call options. |
| Authentication.WalletRequestIsBare | src/Modules/Auth.php:52 | The wallet request has no query string, no form body and no per-call timeout. It carries the session language, and it carries Authorization exactly when a token is set. |
| Facade.Cloud.constructor | src/MizbanCloud.php:74 | The cloud module is bound to the given transport. |
| Facade.Statics.constructor | src/MizbanCloud.php:75 | The catalogue module is bound to the given transport. |
| Facade.MizbanCloud.constructor | src/MizbanCloud.php:68-76 | One new transport is created, with the configured or default settings and no token, and every module is bound to it. |
| Facade.MizbanCloud.SetToken | src/MizbanCloud.php:82-85 | The shared token becomes the given string; the language is unchanged. |
| Facade.MizbanCloud.GetToken | src/MizbanCloud.php:90-93 | Returns the shared token. |
| Facade.MizbanCloud.SetLanguage | src/MizbanCloud.php:98-101 | The shared language becomes the given one; the token is unchanged. |
| Facade.MizbanCloud.GetLanguage | src/MizbanCloud.php:106-109 | Returns the shared language. |
| Facade.MizbanCloud.IsAuthenticated | src/MizbanCloud.php:114-117 | True exactly when a token is set, the empty string included. |
| Facade.NewClientIsAnonymous | tests/MizbanCloudTest.php:34-63 | A new client has no token, is not authenticated, and uses the configured language ("en" by default). |
| Facade.TokenSetThroughAuth | tests/AuthTest.php:54-58 | A token set through Auth is what the facade reports, and the facade is then authenticated. |
| Facade.TokenSetThroughFacade | tests/AuthTest.php:60-62 | A token set through the facade is what Auth reports. |
| Facade.ClearedTokenIsAnonymous | tests/AuthTest.php:74-81 | After Auth clears the token, no token is reported and the facade is not authenticated. |
| Facade.LanguageReachesRequests | src/MizbanCloud.php:98-101 | After the facade sets a language, the CDN module's next call, made through its own transport reference, is sent with that language as Accept-Language and the token unchanged. |

## Left out

- The HTTP library itself is a parameter, `send`, rather than code. This covers base URI resolution, the wire format, the effect of the timeout, and how the library's default headers combine with per-request headers. The headers it is configured with are kept as `HttpClient.clientHeaders`.
- JSON decoding is not modelled. A delivered body is already a string-keyed map, so a success response whose body is not JSON, or not an object, is not modelled.
- A failure response body that decodes to a scalar or to a JSON list is not modelled. One that does not decode at all is modelled as no body. PHP would keep a list body as the exception's response, which its `?array` type accepts.
- PHP `TypeError`s are not modelled. They arise from a non-string `message` or a non-array detail key, and the `Exchange` type excludes them.
- Floating-point values in bodies and payloads are not modelled.
- Integers are unbounded: PHP's 64-bit `int` limits on ids, TTLs and timeouts are not modelled.
- Header arrays are string-keyed maps. `array_merge`'s renumbering of numeric-string keys is not modelled.
- The `$previous` exception chained to a `MizbanCloudException` is not modelled. Neither are the `Exception` base class's own fields beyond message and code.
- Concurrency is not modelled: two callers sharing one client are not considered.
- The endpoints of the Cloud and Statics modules are not part of this model. Only their binding to the shared transport is.
- The segment round trip (`CdnApi.CdnPathSegments`) is proved only for paths whose segments contain no `/`. `deleteRule` and `setDirectRule` end in free strings (`ruleType`, `section`) that may contain `/`, so their paths do not split back into the original segments. Their paths are still injective, because the free string comes last; this is proved for `deleteRule`.
