# AppLicenseserver request-rate limiter, modelled in Dafny

AppLicenseserver is a REST backend for software licensing. Almost all of it is
data-access and web-framework plumbing. This project models the part with its
own logic and state: the per-client DDoS monitor and the middleware that
consults it before a request reaches the controllers. It also models one small
pure mapping, the `Roles` field that is stored as a semicolon-delimited string.

- `wrappers.dfy` (`Wrappers`): `Option` and `Result`. They stand in for C#'s
  `null` and for exceptions.
- `text.dfy` (`Text`): the .NET string operations the limiter uses.
  These are ASCII `ToLower`/`ToUpper`, `Replace`, ordinal `IndexOf` and `Contains`.
- `rate_limit.dfy` (`RateLimit`): the state of the hit counter and the ban
  stack as a value (`MonitorState`), and the three transitions on it.
  - `Hit` is `CheckIpAddress`.
  - `Decayed` is the decay timer's callback.
  - `Released` is the release timer's callback.
  - The file also holds the lemmas about these transitions.
  - Counters are C# `short`s: `int16`, with `++`/`--` wrapping explicitly (`Inc16`, `Dec16`).
  - The top of the ban stack is the last element of the sequence.
- `monitoring_service.dfy` (`Monitoring`): the class `DDosAttackMonitoringService`.
  - Its fields are the configuration, the hit counter `ipAddresses: map<string, int16>`
    and the ban stack `banned: seq<string>`.
  - `RecordHit`, `IsDDosAttack`, `Decay` and `ReleaseOne` update these fields in place.
    Each is proved against the corresponding `RateLimit` transition.
  - The constructor builds the protected-call registry. `ProtectedEntry` builds one
    entry, with the route-template pattern `^(.+?)/{.+}` modelled as a search for
    its lazy group (`FirstPlaceholderFrom`).
- `stop_middleware.dfy` (`Gate`): the request gate.
  - `RequestKey` normalises a request.
  - `Monitored` specifies `IsPathDDosAttackMonitored`; `IsPathMonitored` runs it as a search loop.
  - `ClientId` picks the client address.
  - `Handle` is the pure decision for one request. The class `DDosAttackStopMiddleware`
    with `Invoke` carries it out against the service.
  - The two copies of the middleware (the `src/` tree and the older top-level tree)
    are identical line for line, 13 lines apart. The model is written once, and the
    table below cites both copies.
- `roles_mapping.dfy` (`RolesMapping`): `Join` (view to entity) and `Split`
  (entity to view, empty pieces removed), with the round-trip lemmas.

The two timers are not timers here. The environment calls `Decay` and
`ReleaseOne` whenever a tick is due, and `Run` strings requests together with no
tick in between.

Some behaviours of the code are worth stating outright:
- **Ban threshold.** A client is refused on hit `MaxHitsPerOrigin + 1` of an undecayed
  window: the counter first reaches `MaxHitsPerOrigin`, and the next hit bans
  (`BannedOnHitAfterMax`, `TooManyHitsScenario`).
- **Missing HTTP-method attribute.** The constructor dereferences the HTTP-method attribute
  of every protected handler, so a handler without one makes it throw a null dereference.
  The model's constructor requires every handler to have one.
- **Malformed `X-Forwarded-For`.** `Invoke` lets the exception from parsing the header
  escape (`Throw(MalformedForwardedFor)`).
- **Path without `"api/"`.** The code keeps a quirk: `IndexOf` returns -1 and `Substring(3)`
  then cuts the first three characters. A path shorter than three characters makes
  `Substring` throw (`Throw(SubstringOutOfRange)`).

Substring matching has a consequence for the one protected handler. InfoController
is also routed as `api/v{version:apiVersion}/[controller]`
(src/AppLicenseserver/AppLicenseserver.Api/Controllers/InfoController.cs:45). A request
to `/api/v1/info` normalises to "GET v1/info", which does not contain "GET info", so
that route is not monitored (`NestedPathDoesNotMatch`).

## Model

| member | source | states |
|---|---|---|
| RateLimit.Inc16 | src/AppLicenseserver/AppLicenseserver.Api/Utilities/DDosAttackMonitoringService.cs:179 | `++` on a short counter is addition modulo 2^16 in two's complement (32767 wraps to -32768) |
| RateLimit.Dec16 | src/AppLicenseserver/AppLicenseserver.Api/Utilities/DDosAttackMonitoringService.cs:235 | `--` on a short counter is subtraction modulo 2^16 in two's complement |
| RateLimit.Hit | src/AppLicenseserver/AppLicenseserver.Api/Utilities/DDosAttackMonitoringService.cs:164-181 | CheckIpAddress on the state as a value: only the hit client's key can appear or disappear, afterwards that client is counted or banned, and the ban stack only grows, by at most one push; the counter is compared with Max as a plain integer and `++` wraps at 16 bits (branch by branch in HitEffect, invariant in HitPreservesGood) |
| RateLimit.HitEffect | src/AppLicenseserver/AppLicenseserver.Api/Utilities/DDosAttackMonitoringService.cs:164-181 | an unseen client gets count 1 with the stack unchanged; a client at the threshold loses its counter and is on the stack, pushed only if absent; any other client goes up by one, wrapping at 16 bits (Inc16), with the stack unchanged; no other counter moves |
| RateLimit.HitPreservesGood | src/AppLicenseserver/AppLicenseserver.Api/Utilities/DDosAttackMonitoringService.cs:166-180 | a hit keeps the ban stack free of duplicates and, for 1 <= Max <= 32767, every count in [1, Max] |
| RateLimit.UnreachableMaxNeverBans | src/AppLicenseserver/AppLicenseserver.Api/Utilities/DDosAttackMonitoringService.cs:170-179 | with a threshold outside the short range the counter never equals it: no hit bans, a counted client keeps its counter |
| RateLimit.HitManyCounts | src/AppLicenseserver/AppLicenseserver.Api/Utilities/DDosAttackMonitoringService.cs:166-180 | from no counter, n <= Max undecayed hits leave the counter at exactly n, other keys and the ban stack untouched |
| RateLimit.BannedOnHitAfterMax | src/AppLicenseserver/AppLicenseserver.Api/Utilities/DDosAttackMonitoringService.cs:151-181 | for a fresh client the first Max hits are not attacks; hit Max+1 removes its counter and pushes it on top of the stack |
| RateLimit.HitsNeverUnban | src/AppLicenseserver/AppLicenseserver.Api/Utilities/DDosAttackMonitoringService.cs:164-181 | no sequence of hits removes anyone from the ban stack: a banned client stays refused until released |
| RateLimit.BannedClientRestartsAtOne | src/AppLicenseserver/AppLicenseserver.Api/Utilities/DDosAttackMonitoringService.cs:151-169 | the first hit from a banned client after the ban, before a new counter exists, starts a fresh counter at 1, and the client stays on the stack |
| RateLimit.DecayedCounts | src/AppLicenseserver/AppLicenseserver.Api/Utilities/DDosAttackMonitoringService.cs:233-240 | the decay tick on the counter map: no key is added and no zero count is kept (exact effect in DecayEffect) |
| RateLimit.Decayed | src/AppLicenseserver/AppLicenseserver.Api/Utilities/DDosAttackMonitoringService.cs:231-241 | TimerElapsed on the state as a value: the ban stack is untouched and no counter key is added (DecayEffect, DecayPreservesGood) |
| RateLimit.DecayEffect | src/AppLicenseserver/AppLicenseserver.Api/Utilities/DDosAttackMonitoringService.cs:231-241 | a decay tick lowers every count by exactly 1, removes exactly the entries that reach 0, adds no key, leaves the ban stack and the bounds [1, Max] intact |
| RateLimit.DecayPreservesGood | src/AppLicenseserver/AppLicenseserver.Api/Utilities/DDosAttackMonitoringService.cs:233-240 | a decay tick keeps the limiter invariant |
| RateLimit.Released | src/AppLicenseserver/AppLicenseserver.Api/Utilities/DDosAttackMonitoringService.cs:204-211 | the release delegate on the state as a value: counters untouched, and the stack loses exactly one entry from its top when non-empty (ReleaseEffect, ReleasedManyPops, ReleaseOrder) |
| RateLimit.ReleaseEffect | src/AppLicenseserver/AppLicenseserver.Api/Utilities/DDosAttackMonitoringService.cs:204-211 | a release tick pops the most recently banned client (who is then no longer banned), does nothing to an empty stack, never touches counters |
| RateLimit.ReleasedManyPops | src/AppLicenseserver/AppLicenseserver.Api/Utilities/DDosAttackMonitoringService.cs:204-211 | n release ticks remove exactly the top n entries of the stack |
| RateLimit.ReleaseOrder | src/AppLicenseserver/AppLicenseserver.Api/Utilities/DDosAttackMonitoringService.cs:204-211 | LIFO: of two banned clients, the one banned later is released while the earlier one is still banned |
| Monitoring.FirstPlaceholderFrom | src/AppLicenseserver/AppLicenseserver.Api/Utilities/DDosAttackMonitoringService.cs:91-95 | the lazy group of `^(.+?)/{.+}` ends at the least index where the pattern can match, and there is no match when no index works |
| Monitoring.ProtectedEntry | src/AppLicenseserver/AppLicenseserver.Api/Utilities/DDosAttackMonitoringService.cs:83-104 | the registry string always starts with the upper-cased method, a space and the controller name (the exact string with and without a placeholder in EntryWithoutPlaceholder and EntryWithPlaceholder) |
| Monitoring.EntryWithoutPlaceholder | src/AppLicenseserver/AppLicenseserver.Api/Utilities/DDosAttackMonitoringService.cs:83-104 | without a template or a match of `^(.+?)/{.+}` in the backslash-normalised template, the entry is the upper-cased first method, a space and the lower-cased type name with "Controller" removed |
| Monitoring.EntryWithPlaceholder | src/AppLicenseserver/AppLicenseserver.Api/Utilities/DDosAttackMonitoringService.cs:83-104 | when the backslash-normalised template matches `^(.+?)/{.+}`, the entry also gets "/" and the lower-cased lazy group: the shortest non-empty, line-feed-free prefix that is followed by "/{", at least one character and a "}" on the same line |
| Monitoring.TemplateActionName | src/AppLicenseserver/AppLicenseserver.Api/Utilities/DDosAttackMonitoringService.cs:86-95 | the template "Create/{id}" yields the action name "Create" |
| Monitoring.InfoControllerName | src/AppLicenseserver/AppLicenseserver.Api/Utilities/DDosAttackMonitoringService.cs:84 | the type name "InfoController" yields the controller name "info" |
| Monitoring.InfoControllerEntry | src/AppLicenseserver/AppLicenseserver.Api/Controllers/InfoController.cs:70-74 | the one protected handler, `[HttpGet]` with no template on InfoController, is registered as "GET info" |
| Monitoring.DDosAttackMonitoringService.constructor | src/AppLicenseserver/AppLicenseserver.Api/Utilities/DDosAttackMonitoringService.cs:71-105 | settings stored, one registry entry per protected handler in order, counters and ban stack empty |
| Monitoring.DDosAttackMonitoringService.RecordHit | src/AppLicenseserver/AppLicenseserver.Api/Utilities/DDosAttackMonitoringService.cs:164-181 | the new counter map and ban stack are exactly `Hit` of the old ones; the invariant is kept |
| Monitoring.DDosAttackMonitoringService.IsDDosAttack | src/AppLicenseserver/AppLicenseserver.Api/Utilities/DDosAttackMonitoringService.cs:151-157 | the hit is always recorded first; the answer is exactly "the client is on the ban stack" afterwards |
| Monitoring.DDosAttackMonitoringService.Decay | src/AppLicenseserver/AppLicenseserver.Api/Utilities/DDosAttackMonitoringService.cs:231-241 | iterating over a snapshot of the keys, the new state is exactly `Decayed` of the old one |
| Monitoring.DDosAttackMonitoringService.ReleaseOne | src/AppLicenseserver/AppLicenseserver.Api/Utilities/DDosAttackMonitoringService.cs:204-211 | the new state is exactly `Released` of the old one |
| Gate.RequestKey | AppLicenseserver/AppLicenseserver.Api/Middlewares/DDosAttackStopMiddleware.cs:116-121 | a key always starts with the upper-cased method and a space, and the only failure is the out-of-range substring fault |
| Gate.RequestKeyCut | src/AppLicenseserver/AppLicenseserver.Api/Middlewares/DDosAttackStopMiddleware.cs:129-134 | the key is the upper-cased method, a space and the lower-cased, slash-normalised path after its first "api/"; without "api/" the first three characters are cut, and exactly the paths shorter than that throw |
| Gate.KeyIgnoresCase | src/AppLicenseserver/AppLicenseserver.Api/Middlewares/DDosAttackStopMiddleware.cs:129-130 | the key, or the fault, is the same whatever the letter case of the method and of the path |
| Gate.Monitored | src/AppLicenseserver/AppLicenseserver.Api/Middlewares/DDosAttackStopMiddleware.cs:117-146 | IsPathDDosAttackMonitored as a value: a monitored request has a path, and a fault arises only from the substring cut, only for a non-empty path without full-service protection (cases in PathlessNeverMonitored, MonitoredByKey and RequestKeyCut) |
| Gate.PathlessNeverMonitored | AppLicenseserver/AppLicenseserver.Api/Middlewares/DDosAttackStopMiddleware.cs:106-114 | no path: never monitored, even under full-service protection; with a path, full-service protection always monitors |
| Gate.IsPathMonitored | src/AppLicenseserver/AppLicenseserver.Api/Middlewares/DDosAttackStopMiddleware.cs:117-146 | the early-exit search over the registry returns exactly `Monitored`: containment of some entry in the request key |
| Gate.MonitoredByKey | src/AppLicenseserver/AppLicenseserver.Api/Middlewares/DDosAttackStopMiddleware.cs:137-145 | without full-service protection, a request with a path is monitored exactly when its key contains some registry entry |
| Gate.InfoPrefixMatches | src/AppLicenseserver/AppLicenseserver.Api/Middlewares/DDosAttackStopMiddleware.cs:129-145 | every lower-case GET path without backslashes that starts with /api/info, /api/information included, is monitored by the entry "GET info" |
| Gate.InfoPathMonitored | AppLicenseserver/AppLicenseserver.Api/Middlewares/DDosAttackStopMiddleware.cs:116-132 | GET /api/info is monitored by the entry "GET info" |
| Gate.NestedPathDoesNotMatch | AppLicenseserver/AppLicenseserver.Api/Middlewares/DDosAttackStopMiddleware.cs:116-132 | GET /api/v1/info ("GET v1/info") is not monitored by "GET info" |
| Gate.ClientId | AppLicenseserver/AppLicenseserver.Api/Middlewares/DDosAttackStopMiddleware.cs:67-71 | the forwarded-for address wins when present, a malformed header throws, otherwise the remote address, and no address at all throws |
| Gate.ForwardedForWins | src/AppLicenseserver/AppLicenseserver.Api/Middlewares/DDosAttackStopMiddleware.cs:80-84 | whatever the remote address, even none, a monitored request with a forwarded-for address records its hit under that address and no other counter moves |
| Gate.Handle | src/AppLicenseserver/AppLicenseserver.Api/Middlewares/DDosAttackStopMiddleware.cs:71-108 | Invoke as a value, checking the enabled flag, then monitoring, then the client id, then the hit: a refusal is always 403 "TooManyHits", a disabled gate or a request that throws leaves the state unchanged, and no request unbans anyone (RefusedIffBanned, MonitoredRequestIsCounted) |
| Gate.RefusedIffBanned | AppLicenseserver/AppLicenseserver.Api/Middlewares/DDosAttackStopMiddleware.cs:63-92 | a request is refused iff enabled, monitored, its client resolves and is on the ban stack after the hit; a refusal is 403 "TooManyHits" |
| Gate.MonitoredRequestIsCounted | src/AppLicenseserver/AppLicenseserver.Api/Middlewares/DDosAttackStopMiddleware.cs:78-95 | a monitored request from a resolvable client records exactly one hit for it, including the request that causes a ban, and it is refused exactly when that hit leaves the client banned |
| Gate.ThresholdOfThree | AppLicenseserver/AppLicenseserver.Api/Middlewares/DDosAttackStopMiddleware.cs:65-82 | with Max 3, a monitored client's first three requests from a fresh limiter pass with counts 1, 2, 3; the fourth is refused and bans it with its counter cleared; one release then empties the stack |
| Gate.DisabledForwardsAll | AppLicenseserver/AppLicenseserver.Api/Middlewares/DDosAttackStopMiddleware.cs:58-92 | with the monitor disabled, any number of requests are all forwarded and the counters and bans are unchanged |
| Gate.UnmonitoredLeavesStateAlone | src/AppLicenseserver/AppLicenseserver.Api/Middlewares/DDosAttackStopMiddleware.cs:78-100 | unmonitored requests, however many, are all forwarded and never change the counters or bans |
| Gate.DDosAttackStopMiddleware.Invoke | src/AppLicenseserver/AppLicenseserver.Api/Middlewares/DDosAttackStopMiddleware.cs:71-108 | the outcome and the service's new state are exactly `Handle` of the old state; the service's invariant is kept |
| Gate.DDosAttackStopMiddleware.constructor | src/AppLicenseserver/AppLicenseserver.Api/Middlewares/DDosAttackStopMiddleware.cs:60-64 | the middleware keeps the service it is given |
| Gate.TooManyHitsScenario | src/AppLicenseserver/AppLicenseserver.Api/Middlewares/DDosAttackStopMiddleware.cs:86-95 | with Max 3 and the InfoController registry, three GET /api/info requests from one client pass, the fourth gets 403 "TooManyHits", and after one release tick the next passes |
| Gate.ForwardedForScenario | AppLicenseserver/AppLicenseserver.Api/Middlewares/DDosAttackStopMiddleware.cs:67-73 | under full-service protection an unlisted path is counted, against the forwarded-for address and not the remote one |
| RolesMapping.Join | AppLicenseserver/AppLicenseserver.Domain/Mapping/MappingProfile.cs:35 | joining no roles gives ""; the joined string starts with the first role and is at least as long as every role |
| RolesMapping.Segments | AppLicenseserver/AppLicenseserver.Domain/Mapping/MappingProfile.cs:38 | splitting on ";" gives at least one piece and no piece contains ";" |
| RolesMapping.NonEmpty | AppLicenseserver/AppLicenseserver.Domain/Mapping/MappingProfile.cs:38 | removing empty entries keeps only non-empty pieces taken from the input, and keeps every non-empty piece |
| RolesMapping.Split | AppLicenseserver/AppLicenseserver.Domain/Mapping/MappingProfile.cs:38 | every role read back is non-empty and free of ";", and every non-empty piece of the stored string is read back |
| RolesMapping.NonEmptyAppend | AppLicenseserver/AppLicenseserver.Domain/Mapping/MappingProfile.cs:38 | dropping empty entries distributes over concatenation, so the kept pieces stay in their order |
| RolesMapping.NonEmptyOfOne | AppLicenseserver/AppLicenseserver.Domain/Mapping/MappingProfile.cs:38 | a single piece is kept exactly when it is non-empty |
| RolesMapping.JoinSegments | AppLicenseserver/AppLicenseserver.Domain/Mapping/MappingProfile.cs:35-38 | joining the pieces of any string with ";" gives the string back |
| RolesMapping.SegmentsOfJoin | AppLicenseserver/AppLicenseserver.Domain/Mapping/MappingProfile.cs:35-38 | splitting a non-empty list of joined roles that contain no ";" gives back the roles, empty ones included |
| RolesMapping.RoundTrip | AppLicenseserver/AppLicenseserver.Domain/Domain/UserViewModel.cs:78 | roles that are non-empty and free of ";" are read back exactly, in order, after being stored |
| RolesMapping.EmptyRoles | AppLicenseserver/AppLicenseserver.Domain/Mapping/MappingProfile.cs:35-38 | no roles are stored as "", which reads back as no roles |
| RolesMapping.SplitIdempotent | AppLicenseserver/AppLicenseserver.Domain/Mapping/MappingProfile.cs:35-38 | storing what was read and reading it again gives the same roles |
| RolesMapping.SplitDropsEmptyPieces | AppLicenseserver/AppLicenseserver.Domain/Mapping/MappingProfile.cs:38 | "a;;b;" reads back as ["a", "b"] |

## Left out

- Timers. Creating and starting `System.Timers.Timer`, and their intervals
  (`MaxHitsPerOriginIntervalMs`, `ReleaseIntervalMs`), are not modelled. The ticks are
  explicit calls to `Decay` and `ReleaseOne`.
- Concurrency. The source has no locking, and its decay callback changes the dictionary
  while enumerating its keys. Races between requests and ticks are not modelled: every
  operation runs alone, and `Decay` walks a snapshot of the keys.
- Reflection. Discovering the `[DDosAttackProtected]` methods and their routing attributes
  is not modelled. The constructor takes the protected handlers as a list of
  `Handler(httpMethods, typeName, template)`. It requires an HTTP method for each one,
  because the source throws a null dereference for a handler without an HTTP-method attribute.
- Configuration parsing. The settings are constructor parameters. The source parses them
  with `== "True"` and `int.TryParse`, which writes 0 over the defaults on failure.
- Static fields. The service keeps its state in static fields, so a second construction
  would append the registry again and keep the counters. The model has one instance.
- IP addresses. `IPAddress.Parse` and `MapToIPv4` are library calls. The model takes the
  client id as an opaque string and the forwarded-for header as absent, malformed or an address.
- Logging. The `Log.Warning` calls on ban and on release are not modelled.
- Exception handling. When `Invoke` throws (`Throw` outcomes), what the rest of the
  pipeline answers is not modelled.
- Responses. Writing the 403 status and the body to the response stream is modelled as
  the `Respond(403, "TooManyHits")` outcome. Invoking the next stage is the `Forward` outcome.
- Culture-sensitive text. `ToLower`, `ToUpper` and `IndexOf` follow the current culture
  in .NET. The model maps ASCII letters only and compares ordinally. `PathString` escaping
  is not modelled: the path is taken as the string the matcher sees.
- Null `Roles`. A null `Roles` value on either side of the mapping is not modelled, and
  neither is the Password/DecryptedPassword mapping, which encrypts.
- Everything else in the repository (controllers, services, repositories, entities,
  migrations, token handling, start-up) is framework plumbing and is not modelled.
