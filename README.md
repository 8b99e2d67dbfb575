# Task management service: middleware, authorisation and validation core

This project is a Dafny model of the request-processing core of a Go task
management REST service. It covers:

- the response cache overlay: cache keys and invalidation patterns built
  from the request, invalidation on writes, hit and miss handling with a
  recording writer, and the Redis-backed store underneath;
- JWT role-based access control: public paths, the `Authorization` header,
  permission lookup with `{id}` path patterns, resource ownership, role
  checks and the service-level access helpers;
- API version negotiation from the `Accept` header or a `/vN` path segment,
  with the path rewrite and the deprecation `Warning` header;
- task validation and the task service's guards in front of its repository;
- the health endpoint, which aggregates component checks, reports to the
  service monitor and answers 503 when a dependency is down;
- the fixed-window per-address rate limiter;
- the CloudWatch alarm service's validation, its request assembly and its
  state and operator mappings;
- the status-capturing response writer.

External effects are parameters or oracles:

- the origin handler is a function from a request to the calls it makes on
  its writer;
- the JWT parser is a function from a token to optional claims;
- the repository and the CloudWatch client are values holding their answers;
- the clock is a `now` argument;
- database and Redis pings are probes.

The store is up or down for a whole request. When it is down, every command
fails. Stored values go through an abstract injective encoding.

Modules, one per file:

- `Wrappers`: Option and Result.
- `Text`: the `strings` functions the source uses.
- `Http`: requests, writer calls, the client's writer and `http.Error`.
- `Cache`: pkg/cache.
- `CacheKeys` and `CacheMiddleware`: pkg/middleware/cache.go.
- `Auth`: pkg/auth.
- `Version`: pkg/api/version.
- `Tasks`: pkg/models.
- `TaskService`: pkg/service.
- `Health`: pkg/health.
- `RateLimit`: pkg/middleware/ratelimit.go.
- `Alarms`: pkg/monitoring/cloudwatch_alarm_service.go.
- `StatusCapture`: pkg/middleware/response_writer.go.

Where the repository's written description and its code disagree, the model
follows the code:

- A GET on the bare collection path, with no `X-User-ID` and no cacheable
  query parameter, is cached under the key `v1:tasks`. None of the
  invalidation patterns matches that key, so such a cached list survives
  writes. This is `CacheKeys.BareKeyEscapesInvalidation` and
  `CacheMiddleware.BareListSurvivesWrites`.
- An `Accept: application/vnd.task.v1.1+json` header names `v1.1`, with its
  `v`, which is not a registered version. So the version comes from the path
  or the default (`Version.AcceptKeepsLeadingV`), as the version tests
  expect.
- Removing a leading `/v1.0` segment leaves `//api/tasks`
  (`Version.PathSegmentRewrite`).
- `X-User-ID` is an ordinary client header that only scopes cache keys. The
  cache overlay runs before authentication.

## Model

| member | source | states |
|---|---|---|
| Text.Split | pkg/middleware/cache.go:31 | strings.Split: at least one part, the parts joined by the separator give the input back, no part holds the separator, one part iff the separator is absent |
| Text.SplitJoin | pkg/middleware/cache.go:31 | splitting a join of separator-free parts gives the parts back (the round trip) |
| Text.Trim | pkg/middleware/cache.go:31 | strings.Trim with one cut character: the result neither starts nor ends with it, and text without it is unchanged |
| Text.TrimCutsOnlyC | pkg/middleware/cache.go:31 | the trimmed text is a slice of the input, and every character cut before or after it is the cut character |
| Text.IndexOf | pkg/api/version/version.go:45-46 | the first occurrence of a pattern, or -1 when there is none; no earlier position matches |
| Text.BeforeFirst | pkg/api/version/version.go:48 | the first element of strings.Split: a prefix of the input that never holds the separator; the whole input when the separator is absent, otherwise the text before its first occurrence, its length being that occurrence's index |
| Text.AfterFirst | pkg/api/version/version.go:46-47 | the input is the text before the first separator, the separator, then the result |
| Http.ClientStatus | pkg/health/health.go:72-77 | the status a client receives: the first call's code when it is WriteHeader, 200 when the first call is a Write or there is none |
| Http.LastStatus | pkg/middleware/cache.go:207-210 | the status a capturing writer holds: the start value when no WriteHeader was made, otherwise a code that was written |
| Http.LastStatusIsLastHeader | pkg/middleware/response_writer.go:17-24 | the status held is the code of the last WriteHeader call |
| Http.ErrorReply | pkg/middleware/ratelimit.go:39 | http.Error's calls give the client the error code and the message with a newline as body |
| Http.WriteError | pkg/middleware/ratelimit.go:39 | http.Error sets the plain-text and nosniff headers and makes exactly those calls |
| Http.Sink.Replay | pkg/api/version/version.go:89 | the next handler's calls reach the writer in order and the headers are untouched |
| Cache.StarMatchesAll | pkg/cache/redis.go:51-53 | the glob `*` matches every key |
| Cache.Matches | pkg/cache/redis.go:51-53 | the glob match of KEYS, `*` standing for any run of characters; its properties are the Cache lemmas that follow |
| Cache.MatchesItself | pkg/cache/redis.go:51-53 | every glob matches its own text |
| Cache.MatchesConcat | pkg/cache/redis.go:51-53 | globs compose: matching parts give a matching concatenation |
| Cache.StarFreeMatchesOnlyItself | pkg/cache/redis.go:51-53 | a glob without `*` matches exactly itself |
| Cache.PrefixStarMatches | pkg/cache/redis.go:51-53 | `prefix*` matches exactly the keys starting with the prefix |
| Cache.DecodeEncode | pkg/cache/redis.go:30-44 | a stored value reads back as itself (JSON marshal then unmarshal) |
| Cache.MatchingKeys | pkg/cache/redis.go:51-53 | the stored keys a glob matches, and only those |
| Cache.Store.Set | pkg/cache/redis.go:30-36 | stores the encoded value under the key; a down store fails and changes nothing |
| Cache.Store.Get | pkg/cache/redis.go:38-44 | the decoded value; missing key, undecodable bytes and a down store are distinct errors |
| Cache.Store.Delete | pkg/cache/redis.go:46-48 | removes the key only; deleting a missing key succeeds |
| Cache.Store.Keys | pkg/cache/redis.go:51-53 | exactly the matching stored keys, without duplicates |
| Cache.Store.DeletePattern | pkg/cache/redis.go:56-72 | removes exactly the keys the pattern matches |
| Cache.Store.Clear | pkg/cache/redis.go:74-76 | empties the store |
| Cache.Store.Ping | pkg/cache/redis.go:79-81 | succeeds iff the store is up |
| Cache.SetThenGet | pkg/cache/redis.go:30-44 | a Set followed by a Get returns the value set |
| Cache.DeleteThenGet | pkg/cache/redis.go:38-48 | a Get after a Delete finds nothing |
| CacheKeys.FirstValue | pkg/middleware/cache.go:54 | params.Get: the empty string for a parameter that is absent |
| CacheKeys.CacheableNames | pkg/middleware/cache.go:44-49 | the cacheable parameter names present in the query, each once |
| CacheKeys.Insert | pkg/middleware/cache.go:50 | inserting into a strictly sorted list keeps it sorted and adds exactly the element |
| CacheKeys.SortStrings | pkg/middleware/cache.go:50 | sort.Strings: a sorted permutation of the names |
| CacheKeys.SortedDeterminedByElements | pkg/middleware/cache.go:50 | two strictly sorted lists with the same elements are equal, so the order is canonical |
| CacheKeys.SortedCacheableNames | pkg/middleware/cache.go:44-50 | sorted, and holds exactly the cacheable names present |
| CacheKeys.QueryParts | pkg/middleware/cache.go:53-55 | one `name=value` part per sorted name |
| CacheKeys.ResourceId | pkg/middleware/cache.go:69-71 | a resource id exists iff the trimmed path has more than three segments |
| CacheKeys.QuerySegment | pkg/middleware/cache.go:73-75 | the query segment is absent iff no cacheable parameter is present |
| CacheKeys.UserSegment | pkg/middleware/cache.go:64-66 | the user segment is present iff X-User-ID is non-empty |
| CacheKeys.IdSegment | pkg/middleware/cache.go:69-71 | the id segment is present iff the path has more than three segments |
| CacheKeys.ScopeSegments | pkg/middleware/cache.go:68-75 | no id or query segment iff the path has at most three segments and no cacheable parameter |
| CacheKeys.OptionalSegments | pkg/middleware/cache.go:63-75 | no segment after `tasks` iff no user, no id and no cacheable parameter |
| CacheKeys.BuildCacheKey | pkg/middleware/cache.go:29-80 | every key starts with `version:tasks` |
| CacheKeys.KeyShape | pkg/middleware/cache.go:29-80 | the key is `version:tasks` followed by the optional segments; it is the bare `version:tasks` iff none is present |
| CacheKeys.JoinOfKeySegments | pkg/middleware/cache.go:58-77 | joining the segments with `:` gives the version, `:tasks`, then the rest |
| CacheKeys.NormalizedQueryDependsOnCacheable | pkg/middleware/cache.go:39-55 | queries that agree on the cacheable parameters give the same normalised query |
| CacheKeys.KeyIgnoresOtherInputs | pkg/middleware/cache.go:29-80 | the key depends only on the version and id segments, X-User-ID and the cacheable parameters |
| CacheKeys.SwapKeepsAgreement | pkg/middleware/cache.go:39-55 | reordering differently named parameters does not change the key |
| CacheKeys.OtherParamKeepsAgreement | pkg/middleware/cache.go:46 | adding a non-cacheable parameter does not change the key |
| CacheKeys.RepeatKeepsAgreement | pkg/middleware/cache.go:54 | repeating a parameter does not change the key (params.Get reads the first value) |
| CacheKeys.UsersGetDistinctKeys | pkg/middleware/cache.go:64-66 | the same request from two different users gets two different keys |
| CacheKeys.BuildCachePatterns | pkg/middleware/cache.go:83-111 | one to four invalidation patterns, the first being `version:tasks:*` |
| CacheKeys.PatternsFor | pkg/middleware/cache.go:83-111 | exactly: the base pattern `v:tasks:*`; `v:tasks:user:*` iff a user is set; `v:tasks:*:id` and `v:tasks:*:id:*` last iff the path names a resource |
| CacheKeys.PatternShape | pkg/middleware/cache.go:83-111 | the base pattern first, the user pattern when X-User-ID is set, the two resource patterns when the path names a resource |
| CacheKeys.BasePatternCoversKeys | pkg/middleware/cache.go:90-93 | the base pattern of a write matches every non-bare key of a read with the same glob-free version |
| CacheKeys.BareKeyEscapesInvalidation | pkg/middleware/cache.go:58-61 | no pattern of any write matches the bare `version:tasks` key |
| CacheKeys.UserPatternCoversUserKeys | pkg/middleware/cache.go:95-98 | for a glob-free version and user, the user pattern matches that user's keys that have a segment after the user |
| CacheKeys.ResourcePatternsCoverScopedReads | pkg/middleware/cache.go:100-107 | for a glob-free version and id, a resource pattern matches a user's read of that resource, with or without a query |
| CacheMiddleware.Invalidated | pkg/middleware/cache.go:114-133 | the stored keys that some pattern matches |
| CacheMiddleware.Lookup | pkg/middleware/cache.go:153-165 | a hit is a stored value that decodes; a miss is a down store, an absent key or undecodable bytes |
| CacheMiddleware.AfterMiss | pkg/middleware/cache.go:172-190 | a miss adds at most the request's key and leaves every other entry alone |
| CacheMiddleware.ResponseRecorder.Write | pkg/middleware/cache.go:202-205 | appends to the buffer and forwards the bytes |
| CacheMiddleware.ResponseRecorder.WriteHeader | pkg/middleware/cache.go:207-210 | records the code and forwards it |
| CacheMiddleware.ServeToRecorder | pkg/middleware/cache.go:172-181 | through the recorder the client sees exactly the handler's calls; the buffer holds the body and the status is the last written |
| CacheMiddleware.CacheMiddleware.InvalidateRelatedCaches | pkg/middleware/cache.go:114-133 | always returns nil; removes exactly the stored keys matched by the request's patterns |
| CacheMiddleware.CacheMiddleware.InvalidatePatterns | pkg/middleware/cache.go:116-131 | the pattern loop removes exactly the stored keys some pattern matches; a failing listing is skipped |
| CacheMiddleware.CacheMiddleware.DeleteKeys | pkg/middleware/cache.go:124-130 | removes exactly the listed keys |
| CacheMiddleware.CacheMiddleware.ServeGet | pkg/middleware/cache.go:160-192 | a hit writes the JSON type, X-Cache HIT and the stored body and leaves the store alone; a miss passes the origin's answer through unchanged and stores its body under the key exactly when its last status is 200 or 201 |
| CacheMiddleware.CacheMiddleware.CacheHandler | pkg/middleware/cache.go:147-194 | a non-GET invalidates the related keys, then is served; a GET hit writes the JSON type, X-Cache HIT and the stored body; a GET miss serves and stores a 200 or 201 body under the key |
| CacheMiddleware.InvalidatedStep | pkg/middleware/cache.go:116-131 | invalidating pattern by pattern removes the union of the matches |
| CacheMiddleware.LookupUnaffected | pkg/middleware/cache.go:114-133 | deleting other keys does not change a lookup |
| CacheMiddleware.NeverCachedWithoutWriteHeader | pkg/middleware/cache.go:185-187 | a handler that never calls WriteHeader leaves the recorder at status 0, so nothing is stored |
| CacheMiddleware.MissThenHit | pkg/middleware/cache.go:185-190 | a stored 200 or 201 miss is a hit with the same body for the next GET |
| CacheMiddleware.FailedMissStoresNothing | pkg/middleware/cache.go:185 | any other status stores nothing |
| CacheMiddleware.WriteInvalidatesScopedReads | pkg/middleware/cache.go:149-160 | after a write, no non-bare read key with the same glob-free version remains |
| CacheMiddleware.BareListSurvivesWrites | pkg/middleware/cache.go:149-160 | after a write, the bare list key still holds its old response |
| Auth.MatchPath | pkg/auth/middleware.go:33-43 | the anchored match of a pattern whose `{id}` stands for a non-empty run without `/`; its properties are the four lemmas that follow |
| Auth.LiteralPatternMatchesOnlyItself | pkg/auth/middleware.go:33-43 | a pattern without `{` matches exactly itself |
| Auth.LiteralHeadForced | pkg/auth/middleware.go:33-43 | a literal head of a pattern must start the path |
| Auth.PlaceholderMatchesIdRuns | pkg/auth/middleware.go:35 | `{id}` matches exactly the non-empty runs of letters, digits and `-` |
| Auth.PrefixThenPlaceholder | pkg/auth/middleware.go:33-43 | `prefix{id}` matches exactly the prefix followed by a non-empty id run |
| Auth.Permitted | pkg/auth/middleware.go:83-108 | the reference definition: some claimed role grants the verb on a pattern that matches the path |
| Auth.HasPermission | pkg/auth/middleware.go:83-108 | true iff some role of the claims grants the verb on a pattern matching the path |
| Auth.BearerToken | pkg/auth/middleware.go:66-72 | the token is what follows `Bearer ` and holds no space |
| Auth.AuthDecision | pkg/auth/middleware.go:46-115 | the decision of AuthMiddleware, stated case by case; its properties are Auth.HeaderChecksPrecedeParsing and Auth.PassedRequestsArePermitted |
| Auth.AuthMiddleware | pkg/auth/middleware.go:46-115 | public prefix, then missing header 401, then not `Bearer x` 401, then invalid token 401, then no permission 403, else pass with the claims |
| Auth.HeaderChecksPrecedeParsing | pkg/auth/middleware.go:58-69 | a missing or malformed header is refused with 401 whatever the token parser says |
| Auth.BearerShapedExactly | pkg/auth/middleware.go:64-69 | `Bearer ` and a space-free token is accepted and gives back that token |
| Auth.PassedRequestsArePermitted | pkg/auth/middleware.go:72-115 | a non-public request that passes carries claims whose roles permit it |
| Auth.ExtractResourceID | pkg/auth/middleware.go:159-165 | empty for fewer than three segments, otherwise the text after the last `/` |
| Auth.ExtractFromTaskList | pkg/auth/middleware.go:159-165 | the collection path yields `tasks` as its resource id |
| Auth.HasResourceAccess | pkg/auth/middleware.go:168-172 | ownership is always granted |
| Auth.ResourceOwnershipMiddleware | pkg/auth/middleware.go:118-156 | GETs on paths without `/` pass; otherwise refused 401 iff there are no claims |
| Auth.HasRole | pkg/auth/models.go:10-19 | true iff some required role is in the user's roles |
| Auth.HasRoleNeedsBoth | pkg/auth/models.go:10-19 | false when either list is empty |
| Auth.HasRoleMonotone | pkg/auth/models.go:10-19 | more roles on either side keep it true |
| Auth.RequireRoles | pkg/auth/middleware.go:205-222 | passes, with the claims unchanged, iff there are claims holding a required role; no claims gives 401 unauthorized; claims holding none of the roles give 403 forbidden |
| Auth.GetUserFromContext | pkg/auth/service.go:8-18 | the user of the claims, or the zero user and ErrUserNotFound |
| Auth.CanAccessResource | pkg/auth/service.go:21-38 | no claims gives ErrUserNotFound; an admin is allowed |
| Auth.AccessIffClaims | pkg/auth/service.go:21-38 | access is granted iff there are claims; ErrResourceNotOwned never occurs |
| Auth.UpdateTask | pkg/auth/service.go:45-53 | the access check for the task |
| Auth.ViewerOnlyReads | pkg/auth/middleware.go:195-201 | the default viewer role grants only GET |
| Auth.UserCannotModifyTaskList | pkg/auth/middleware.go:187-193 | the default user role cannot PUT or DELETE the collection |
| Auth.ViewerReadsTaskById | pkg/auth/middleware.go:195-201 | the default viewer role reads `/api/v1/tasks/abc-123` |
| Auth.IdDoesNotSpanSlash | pkg/auth/middleware.go:35 | `/api/v1/tasks/{id}` does not match `/api/v1/tasks/abc/123`: an id never spans a `/` |
| Version.FirstVersionSegment | pkg/api/version/version.go:56-60 | the first segment `v` plus a registered version, or -1; none before it qualifies |
| Version.Resolve | pkg/api/version/version.go:42-69 | a registered Accept version wins, then the first registered path segment (which is removed), else the default |
| Version.DeprecationWarning | pkg/api/version/version.go:82 | a warn-code 299 header quoting "Deprecated API version" |
| Version.VersionManager.RegisterVersion | pkg/api/version/version.go:32-39 | adds or replaces that version's entry only |
| Version.VersionManager.GetVersion | pkg/api/version/version.go:42-69 | the loop computes Resolve's version and path |
| Version.VersionManager.Entry | pkg/api/version/version.go:75 | an unregistered version reads the zero entry, which is not deprecated |
| Version.VersionManager.VersionMiddleware | pkg/api/version/version.go:72-91 | sets X-API-Version, sets Warning iff deprecated, and serves the rewritten request once |
| Version.AcceptVersion | pkg/api/version/version.go:45-48 | the version named by the Accept header is a prefix of the text after its first vendor marker and holds no `+` |
| Version.WithoutSegment | pkg/api/version/version.go:62 | the rewritten path starts with `/`, and splitting the rest at `/` gives the other segments in order |
| Version.AcceptVersionOfMarkedHeader | pkg/api/version/version.go:45-48 | a header whose first marker follows any prefix, and whose rest holds no second marker, names the rest up to its first `+` |
| Version.MarkerAfterPlainPrefix | pkg/api/version/version.go:45-46 | after a prefix without `a`, the marker that follows is the first one |
| Version.AcceptOfShortHeader | pkg/api/version/version.go:45-48 | `prefix + marker + v + "+" + s` names `v`, wherever the marker stands |
| Version.AcceptAfterOtherType | pkg/api/version/version.go:45-48 | `text/html,application/vnd.task.v2+json` names `v2` |
| Version.AcceptKeepsLeadingV | pkg/api/version/version.go:45-48 | `application/vnd.task.v1.1+json` names `v1.1` |
| Version.LeadingVersionSegmentRemoved | pkg/api/version/version.go:56-63 | a registered leading segment is removed and the path keeps its empty first segment |
| Version.PathSegmentRewrite | pkg/api/version/version.go:62 | `/v1.0/api/tasks` resolves to `1.0` with path `//api/tasks` |
| Version.DefaultWhenNothingMatches | pkg/api/version/version.go:42-69 | with no vendor Accept header and no segment starting with `v`, the default version and the unchanged path |
| Tasks.IsValidStatus | pkg/models/task.go:77-84 | one of the four status constants; its instances are Tasks.ValidStatuses |
| Tasks.ValidStatuses | pkg/models/task.go:77-84 | exactly the four status constants are valid |
| Tasks.TaskCreate.Validate | pkg/models/task.go:46-63 | title, then default status, then status, due date present, due date not past, in that order; valid iff all hold; only the status may change |
| Tasks.ValidateUpdate | pkg/models/task.go:66-74 | only present fields are checked: an invalid status gives the status error; otherwise a past due date gives the due-date error; valid iff neither |
| Tasks.UpdateIgnoresText | pkg/models/task.go:66-74 | title and description never affect update validation |
| Tasks.EmptyUpdateIsValid | pkg/models/task.go:66-74 | an update with no fields is valid |
| TaskService.CreateTask | pkg/service/task_service.go:29-35 | a failed validation returns its error (title, status, missing due date, past due date, in that order) without a repository call; otherwise the repository is called once with the validated task, whose empty status became pending, and its answer is returned |
| TaskService.GetTask | pkg/service/task_service.go:37-43 | an empty id is refused without a repository call |
| TaskService.UpdateTask | pkg/service/task_service.go:45-55 | empty id, then update validation, are refused without a repository call |
| TaskService.DeleteTask | pkg/service/task_service.go:57-63 | an empty id is refused without a repository call |
| TaskService.ListTasks | pkg/service/task_service.go:65-80 | page below 1 becomes 1, limit below 1 becomes 10, the status passes through |
| TaskService.ListClampIdempotent | pkg/service/task_service.go:65-80 | clamping already clamped values changes nothing |
| Health.CheckDatabase | pkg/health/health.go:157-177 | UP iff configured and reachable; the not-configured and failure messages |
| Health.CheckRedis | pkg/health/health.go:180-200 | UP iff configured and reachable; the not-configured and failure messages |
| Health.Overall | pkg/health/health.go:82-109 | overall DOWN iff the database or the cache is configured and unreachable, so an unconfigured database alone is not DOWN |
| Health.Reports | pkg/health/health.go:92-145 | the database report with its check's status and message, then the cache report likewise only when configured, then the system report with the overall status |
| Health.Monitor.UpdateServiceState | pkg/health/health.go:94 | the monitor records each state sent, in order |
| Health.Handler.CheckHealth | pkg/health/health.go:81-154 | services hold database and, when configured, cache; the status is the overall one; the monitor receives the reports |
| Health.Handler.ServeHTTP | pkg/health/health.go:68-78 | JSON content type, 503 before the body iff DOWN, then the encoded response |
| Health.ServedStatus | pkg/health/health.go:73-77 | the client receives 503 iff DOWN, else 200 |
| RateLimit.CounterKey | pkg/middleware/ratelimit.go:34 | the key is the prefix followed by the client address, which can be read back from it |
| RateLimit.CounterKeyInjective | pkg/middleware/ratelimit.go:34 | different addresses have different counters |
| RateLimit.Counters.Incr | pkg/middleware/ratelimit.go:37 | INCR returns the old count plus one and stores it |
| RateLimit.Counters.Expire | pkg/middleware/ratelimit.go:45 | EXPIRE sets the window of an existing counter only |
| RateLimit.RateLimiter.RateLimit | pkg/middleware/ratelimit.go:31-56 | a store error gives 500; otherwise the counter grows by one, the expiry is set iff it is 1, 429 iff it exceeds the maximum, else next; other counters are unchanged; every counter keeps an expiry |
| RateLimit.Counters.Lapse | pkg/middleware/ratelimit.go:44-46 | when the window set by EXPIRE runs out, the counter and its expiry are gone |
| RateLimit.RateLimiter.Run | pkg/middleware/ratelimit.go:31-56 | n successive requests from one client on an available store: the counter grows by n, the window is set by the request that creates it, and the client gets the handler's reply or 429 exactly as WindowRun says |
| RateLimit.RateLimiter.FreshWindowRun | pkg/middleware/ratelimit.go:44-54 | after the window lapses, n requests reach the handler exactly the first maxRequests times |
| RateLimit.WindowRun | pkg/middleware/ratelimit.go:48-54 | in one window, request i is admitted iff its count does not exceed the maximum |
| RateLimit.FirstRequestsPass | pkg/middleware/ratelimit.go:48-54 | in a fresh window exactly the first maxRequests requests pass |
| RateLimit.RefusalIsFinal | pkg/middleware/ratelimit.go:48-54 | once refused, every later request in the window is refused |
| StatusCapture.ResponseWriter.constructor | pkg/middleware/response_writer.go:12-14 | a new wrapper reports 200 |
| StatusCapture.ResponseWriter.WriteHeader | pkg/middleware/response_writer.go:17-20 | records the code and forwards the same code |
| StatusCapture.ResponseWriter.Write | pkg/middleware/response_writer.go:6-9 | body writes pass through unchanged |
| StatusCapture.ResponseWriter.Serve | pkg/middleware/response_writer.go:17-24 | StatusCode is the last code written, and the client sees every call |
| StatusCapture.CapturedMatchesClient | pkg/middleware/response_writer.go:12-24 | with at most one leading WriteHeader, the captured code is what the client receives |
| StatusCapture.SecondStatusDiverges | pkg/middleware/response_writer.go:17-24 | after a second WriteHeader the captured code differs from the client's |
| Alarms.Int32 | pkg/monitoring/cloudwatch_alarm_service.go:49 | int32 conversion: in range and congruent modulo 2^32, identity in range |
| Alarms.Validate | pkg/monitoring/cloudwatch_alarm_service.go:30-41 | empty name, empty metric, period under 60 s, evaluation periods under 1, in that order |
| Alarms.ConvertComparisonOperator | pkg/monitoring/cloudwatch_alarm_service.go:126-138 | the four operators map to themselves, anything else to GreaterThanThreshold |
| Alarms.ConvertIdempotent | pkg/monitoring/cloudwatch_alarm_service.go:126-138 | converting twice is converting once |
| Alarms.SnsTargets | pkg/monitoring/cloudwatch_alarm_service.go:56-60 | at most one target per action |
| Alarms.SnsTargetsCount | pkg/monitoring/cloudwatch_alarm_service.go:56-60 | no target without sns actions; one target per action when every action is sns |
| Alarms.SnsTargetsAppend | pkg/monitoring/cloudwatch_alarm_service.go:56-60 | the targets of concatenated actions concatenate, so order is kept |
| Alarms.SnsTargetsFromSns | pkg/monitoring/cloudwatch_alarm_service.go:56-60 | every target comes from an sns action |
| Alarms.SnsTargetKept | pkg/monitoring/cloudwatch_alarm_service.go:56-60 | every sns action's target is kept |
| Alarms.CollectActions | pkg/monitoring/cloudwatch_alarm_service.go:56-60 | the loop collects exactly the sns targets in order |
| Alarms.CollectDimensions | pkg/monitoring/cloudwatch_alarm_service.go:63-68 | one dimension per label, exactly the labels' pairs |
| Alarms.Service.CreateAlarm | pkg/monitoring/cloudwatch_alarm_service.go:28-76 | invalid alarms are refused before any call; a valid one is sent once as an input describing it and the call's error is wrapped |
| Alarms.Service.UpdateAlarm | pkg/monitoring/cloudwatch_alarm_service.go:79-82 | the same contract as CreateAlarm |
| Alarms.GetAlarmState | pkg/monitoring/cloudwatch_alarm_service.go:97-117 | client error UNKNOWN with error; no alarm UNKNOWN with "alarm not found"; OK and ALARM map through; anything else UNKNOWN without error |
| Alarms.FirstAlarmDecides | pkg/monitoring/cloudwatch_alarm_service.go:109 | only the first alarm described decides the state |

## Left out

- Cache.Matches: only `*` is a wildcard; `?`, `[...]` and `\` escapes of KEYS match literally. The source puts client-controlled text into its patterns unescaped: the version segment of the path, the X-User-ID header and the resource id (pkg/middleware/cache.go:92, 97, 104-105). When that text holds `?`, `[` or `\`, the store reads the pattern as glob syntax. For example, the user `a[b]` gives the pattern `v1:tasks:a[b]:*`, which does not match that user's key `v1:tasks:a[b]:x`. The coverage lemmas CacheKeys.BasePatternCoversKeys, CacheKeys.UserPatternCoversUserKeys, CacheKeys.ResourcePatternsCoverScopedReads and CacheMiddleware.WriteInvalidatesScopedReads are therefore stated only for text free of these characters (Cache.GlobFree), and nothing is promised for other text.
- Store expiry: cache TTLs and their timing are not modelled, and neither is the Redis wire protocol. Stored bytes use an abstract injective encoding in place of JSON.
- Store availability: the store is up or down for a whole request. A failure between two commands of one request is not modelled.
- Auth.MatchPath: `matchPath` builds a regular expression. The model treats the pattern's other characters literally, so regular-expression metacharacters in a configured pattern (such as `.`) are not modelled.
- Token parsing: JWT parsing and signature checks (pkg/auth/token.go) are an oracle from token to optional claims.
- Request context: it is modelled only as optional claims.
- Health floats and runtime figures: the system information, the response timestamp and the float metrics sent to the monitor are not modelled. Neither is the monitor's own CloudWatch publishing.
- JSON encoding: the health response's JSON encoding is a parameter.
- Other rate limiters: LocalRateLimiter and SafetyLimiter wrap a token-bucket library and are not modelled.
- RateLimit.RateLimiter.RateLimit: an EXPIRE that fails after a successful INCR would leave a counter that never expires. Because the store is up or down for a whole request, this is not modelled. The 64-bit counter's overflow is not modelled either.
- Alarms.Service.CreateAlarm: the period's conversion from float seconds to int32 is modelled as whole seconds without a 32-bit bound. Go leaves out-of-range float conversions implementation-defined. The model also truncates the exact duration, while `Duration.Seconds()` first rounds to a float64: for a period of at least 2^24 seconds (about 194 days) whose nanosecond part is 999,999,999, the float rounds up to the next whole second, so the source sends one second more than the model. The threshold is a `real` that is only passed through, not an IEEE double.
- Alarm deletion: DeleteAlarm is a single client call that wraps its error.
- Alarm switch: IsAlarmsEnabled reads an environment variable.
- Action payloads: alarm action payloads are not modelled, because they are never read.
- Concurrency: lost invalidations between concurrent requests and cache stampedes are not modelled.
- Logging: log output is not modelled.
- Origin handler headers: the headers the origin handler sets are not modelled; only its WriteHeader and Write calls are.
- Superfluous WriteHeader: `Http.ClientStatus` states what a client receives after a second WriteHeader. The model's client writer otherwise records every call.
- Health.Handler.CheckHealth: the monitor is either absent or a working monitor. When ENABLE_METRICS is not "true", cmd/api/main.go:54-55 and 155-160 hand the health handler a nil `*ServiceMonitor` inside a non-nil interface. The check at pkg/health/health.go:93 then lets the call through, and UpdateServiceState (pkg/monitoring/service_monitor.go:71-79) writes through a nil receiver, which panics. This case is seen from reading the code only and is not modelled.
- Text.Trim: its own contract states the ends and the unchanged case; that only the cut character is removed, and from the ends only, is stated by Text.TrimCutsOnlyC.
- Http.LastStatus: its own contract says the held status is some code that was written; that it is the code of the last WriteHeader is stated by Http.LastStatusIsLastHeader.
- CacheKeys.BuildCacheKey: its own contract states only the `version:tasks` prefix; the exact key is stated by CacheKeys.KeyShape.
- Out-of-scope code: the repository implementation, the HTTP handlers' JSON plumbing and the program's start-up wiring are not part of this model.
