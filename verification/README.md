# Zentinelle gateway and backend protocols in Dafny

A model of the stateful parts of the Zentinelle gateway (Go), three protocols of
its backend (Python) and the browser's reply reader (TypeScript), with proofs of
what they keep. `dafny verify dfyconfig.toml` checks the whole project.

Concurrent protocols are step relations: a state, the steps that are enabled in
it, and theorems over every run, that is, over every interleaving of any number
of replicas, requests, deliveries or reports with every choice the network, the
database or an operator can make. Code that changes things step by step is a
class or a method with loops, tied by its postconditions to a specification
about which the theorems speak. What the outside supplies (answers of the policy
service, bodies read in chunks, clocks, random numbers) is a parameter that is
quantified over.

| file | what it models |
|---|---|
| LocalCredential.dfy | web replicas racing to publish one local gateway credential: check, mint, hard-link, revoke own or sweep the others |
| UsageDelivery.dfy | usage reports under random event IDs over a network that loses answers, the event store behind them, and the drain of a replica |
| AuditWebhook.dfy | acceptance of audit events: the idempotency marker, evidence and spend in one transaction, release on failure |
| ProviderKeys.dfy, ProviderKeyRuns.dfy | the bounded TTL cache of provider keys and the rate-limited credential re-read; then concurrent lookups against a backend whose keys rotate |
| RateLimiter.dfy, SessionIdle.dfy | the pruned sliding-window list, and the idle stamp that is rewritten at most once a minute |
| Metrics.dfy | label folding, histograms and the CloudWatch record of their differences |
| Stream.dfy, Usage.dfy, UsageShapes.dfy | streaming, copying and holding back a response; the token usage read out of it and the text an output filter judges; the usage objects each provider writes, and the way back to their counts |
| Handler.dfy, Routes.dfy, Query.dfy | one proxied request as a sequence of effects, many at once, the route and model it is about, and the query filter |
| Heartbeat.dfy | status windows, back-off, jitter and the wait for a new credential |
| ChatLines.dfy | the line buffer of the browser's chat hook and the message it assembles |
| Text.dfy, Json.dfy, Basics.dfy, Wrappers.dfy | splitting, joining and trimming text; JSON values; truncation, unused IDs and set sizes; `Option` |

## Premises

Each is a hypothesis of the lemmas concerned or a choice of the step relation.

- Hashes are injective, event and credential IDs are new when drawn.
- Local credential: unlinking the private temporary file does not fail, the file
  is removed only when `RemovalSafe` holds, and for the claim about leftover
  credentials crashes are `CrashHarmless`. All three are shown to be needed.
- Audit webhook: an organisation keeps its tenant; a raised exception means the
  transaction rolled back; deliveries may crash only where `CrashHarmless` holds;
  looking a session's evidence up and inserting it is one step, where the source
  looks and then inserts within a transaction (astrolift_audit.py:323-327), so two
  deliveries of one session event under different keys of a tenant do not pass
  each other there.
- Usage reports: only the events endpoint answers a report with a status below 300,
  and only for a copy it took.
- Provider keys: a lookup takes at most a fixed latency from the backend's
  answer to the cache entry.
- Rate limiter: one limit and window per key, a clock that does not go back, and
  a cache get with its set as one step.
- One proxied request: a write to the client may fail while the request's context is
  still open, as http.ResponseWriter allows. Behind a server that ends the context
  of a connection it can no longer write to, a failed write never comes alone, and
  `clientEnded` holds whenever a write failed.
- Latencies are whole milliseconds and times of the session stamp whole seconds.

## Where the code differs from what is said about it

- A published credential is called safe to rotate by removing the file. Keeping
  out of the link-to-sweep windows is not enough: a replica whose minted
  credential was swept while it waited can still link it
  (`LocalCredential.SweptReplicaRepublishes`); the exact condition is
  `LocalCredential.RemovalIsSafeExactlyWhen`.
- If unlinking the temporary file raises after the link, the replica revokes the
  credential it has just published (`LocalCredential.CleanupFailureRevokesThePublished`).
- gateway/README.md:66-69 bounds the use of a rotated provider key by a minute, the
  TTL. That is the bound if and only if a lookup's answer is cached within one tick
  of the clock (`ProviderKeyRuns.TtlIsTheBoundExactlyWhen`); in general it is the
  TTL plus the time a lookup takes, which is attained
  (`ProviderKeyRuns.StaleAnswersRunOut`, `ProviderKeyRuns.StaleUntilTheBound`).
- A retried usage report is a duplicate only if the backend stamps it as before;
  if the gateway's credential was accepted at one attempt and not at the other it
  is answered as a conflict, with the first copy stored
  (`UsageDelivery.RepeatIsDuplicateExactlyWhenStampedAlike`,
  `UsageDelivery.LostAnswerThenOtherStampConflicts`).
- A JSON `true` passes for an organisation number and gets a key of its own
  (`AuditWebhook.OneKeyPerOrganisationExactlyForNumbers`).
- An idempotency key stands for one evidence row if and only if it is not used both
  for a session event and for another: a session event whose observation fails
  leaves its row without its marker, and another event can then be accepted under
  the key (`AuditWebhook.OneRowPerKeyExactlyWhen`,
  `AuditWebhook.TwoKindsLeaveTwoRows`).
- A process that dies between claiming the audit marker and writing suppresses
  the event for good, a session event as any other
  (`AuditWebhook.HarmfulCrashSuppressesForever`). One that dies between writing a
  session's evidence and observing it keeps the evidence and suppresses the
  observation (`AuditWebhook.WrittenCrashSuppressesObservation`).
- Retry-After asks for about a window more than needed
  (`RateLimiter.RetryAfterOverasks`).
- A heartbeat loads `requests` before `blocked`, so it can report more blocked
  than requests. It does not if and only if the requests that began and were blocked
  in between are no more than those that had begun and are not blocked
  (`Handler.ReportedCountersAgreeExactlyWhen`).
- Every call that got a response is meant to be metered at whatever usage a partial
  body carries (gateway/handler.go:342-345). All that was read is metered if and only
  if the response was not copied and ended by a read error: copyResponse drops what
  it read (gateway/stream.go:128-131), so a response whose whole text arrives before
  the connection breaks is metered at nothing (`Handler.ReadIsMeteredExactlyWhen`,
  `Handler.BrokenCopyIsMeteredAtNothing`).
- A report's outcome is meant to be how the call ended (gateway/usage.go:243-245).
  A failed write to the client is reported as that if and only if the response was
  streamed without a filter or the request's context has ended; of a copied or
  held-back response it is otherwise put down to the provider
  (`Handler.WriteFailureIsNamedExactly`,
  `Handler.CopiedWriteFailureIsPutOnTheProvider`).

## Model

| member | source | states |
|---|---|---|
| LocalCredential.PublishedCredentialIsLive | backend/zentinelle/auth/gateway_credential.py:38-85 | in every interleaving of any number of replicas, the file, whenever it exists, holds an unrevoked credential |
| LocalCredential.OnePublisherAtATime | backend/zentinelle/auth/gateway_credential.py:67-82 | two replicas are never both between hard-link and sweep |
| LocalCredential.RemovalIsSafeExactlyWhen | backend/zentinelle/auth/gateway_credential.py:44-82 | removing the file keeps every continuation safe if and only if nobody is between link and sweep and nobody holds a swept credential |
| LocalCredential.UnsafeRemovalWitness | backend/zentinelle/auth/gateway_credential.py:67-82 | from every other state a continuation publishes a revoked credential |
| LocalCredential.SweptReplicaRepublishes | backend/zentinelle/auth/gateway_credential.py:61-82 | a run with nobody in a link-to-sweep window after which removal still leads to a revoked published credential |
| LocalCredential.CleanupFailureRevokesThePublished | backend/zentinelle/auth/gateway_credential.py:74-77 | an OSError raised after the link revokes the published credential |
| LocalCredential.OnlyThePublishedCredentialIsLeft | backend/zentinelle/auth/gateway_credential.py:79-82 | once all replicas have returned, the file's credential is the only unrevoked one |
| LocalCredential.HarmfulCrashLeavesAStray | backend/zentinelle/auth/gateway_credential.py:61-82 | a crash outside the stated condition leaves a working credential that nothing revokes for as long as the file stays |
| LocalCredential.Install.EnsureLocalCredential | backend/zentinelle/auth/gateway_credential.py:38-105 | one call without interference: which of the file, the minted and the revoked credentials change, on every branch |
| UsageDelivery.AtMostOneEventPerReport | gateway/usage.go:286-387 | whatever is lost, refused or repeated, the store holds at most one event per report, with that report's payload, and no report is sent more than four times |
| UsageDelivery.IngestedIsStoredOnce | backend/zentinelle/migrations/0057_event_producer_idempotency.py:24 | a report of which any copy arrived is stored exactly once |
| UsageDelivery.AcceptedIsStoredOnce | gateway/usage.go:376-386 | a report that ended on a status below 300 is stored exactly once |
| UsageDelivery.GivenUpOnlyWhenSpent | gateway/usage.go:331-344 | a report is dropped only on an answer no retry can fix or after all four attempts |
| UsageDelivery.AnswerSettlesExactlyWhen | gateway/usage.go:376-386 | an answer settles a report if and only if it is a status below 500 other than 429, or the fourth |
| UsageDelivery.RepeatIsDuplicateExactlyWhenStampedAlike | gateway/usage.go:308-318 | a repeated copy is a duplicate if and only if the backend stamps it as it stamped the stored one, and otherwise a conflict |
| UsageDelivery.LostAnswerThenOtherStampConflicts | gateway/usage.go:308-345 | a run, for every body and every two stamps, whose second copy is a conflict |
| UsageDelivery.PendingCountsUnsettledReports | gateway/usage.go:328-345 | the pending counter always equals reports started minus reports settled |
| UsageDelivery.CleanDrainFinishedEverything | gateway/main.go:88-120 | a clean drain leaves no request in flight and every report ever started settled |
| UsageDelivery.CleanDrainIsFinal | gateway/main.go:88-120 | and no later step can start a request or a report there |
| UsageDelivery.GatewayProcess.Deliver | gateway/usage.go:331-345 | the loop stops at the first status below 500 other than 429, or at the fourth attempt, gives its pending count back, and ends the report as the protocol does |
| UsageDelivery.GatewayProcess.DrainUsageReports | gateway/usage.go:266-277 | returns true at the first sample of the pending counter that reads zero, and false if none does before time runs out |
| UsageDelivery.DrainRun | gateway/main.go:88-120 | whatever everybody else does while it waits, drain's steps are a run of the protocol that ends stopped |
| UsageDelivery.GatewayProcess.Drain | gateway/main.go:88-120 | is clean exactly when shutdown finished and the reports were flushed, and stops the replica in such a run with that same answer |
| AuditWebhook.KeyInjective | backend/zentinelle/integrations/astrolift_audit.py:230-239 | the idempotency key determines the organisation text and the event ID |
| AuditWebhook.DecimalIsTheNumber | backend/zentinelle/integrations/astrolift_audit.py:231 | the number in a key is written in decimal without leading zeros |
| AuditWebhook.OneKeyPerOrganisationExactlyForNumbers | backend/zentinelle/integrations/astrolift_audit.py:230-239 | one organisation number has one key exactly when its JSON forms are the same, which `true` and 1 are not |
| AuditWebhook.OneEvidenceRowPerKey | backend/zentinelle/integrations/astrolift_audit.py:264-346 | in every interleaving each key has at most one evidence row of a session event and one of any other |
| AuditWebhook.OneRowPerKeyExactlyWhen | backend/zentinelle/integrations/astrolift_audit.py:264-346 | whatever fails and is retried, every key has at most one row if and only if no key is used for both |
| AuditWebhook.TwoKindsLeaveTwoRows | backend/zentinelle/integrations/astrolift_audit.py:285-301 | for every session event and every other event under one key, a run that leaves two rows |
| AuditWebhook.SpendMatchesEvidence | backend/zentinelle/integrations/astrolift_audit.py:319-380 | in every run spend records and model-spend rows match one to one: each record is under its row's key with exactly the counts, provider and model that the row's payload fields declare, and no key is charged twice |
| AuditWebhook.DeclaredIsRead | backend/zentinelle/integrations/astrolift_audit.py:349-381 | a payload is read if and only if its fields declare a spend (counts absent or whole numbers in range, names absent or text), and then as exactly that spend, the names cut to 50 and 100 characters |
| AuditWebhook.FailedDeliveryLeavesNothing | backend/zentinelle/integrations/astrolift_audit.py:264-306 | a failed delivery leaves no marker and, unless a session event, no evidence and no spend |
| AuditWebhook.CleanRetryIsAccepted | backend/zentinelle/integrations/astrolift_audit.py:230-306 | a later delivery that meets no failure is accepted, and writes its row unless the tenant already has the session |
| AuditWebhook.AcceptedAndMarkedAreEvidenced | backend/zentinelle/integrations/astrolift_audit.py:230-306 | an accepted delivery has evidence, and so does every marked key nobody is working on |
| AuditWebhook.HarmfulCrashSuppressesForever | backend/zentinelle/integrations/astrolift_audit.py:264-306 | after a crash between claim and write no continuation ever writes a row under the event's key, whatever its kind |
| AuditWebhook.AcceptedSessionsAreObserved | backend/zentinelle/integrations/astrolift_audit.py:294-306 | in every run an accepted session delivery was observed |
| AuditWebhook.WrittenCrashSuppressesObservation | backend/zentinelle/integrations/astrolift_audit.py:290-306 | after a crash between a session's evidence and its observation no continuation ever observes it |
| AuditWebhook.AloneRuns | backend/zentinelle/integrations/astrolift_audit.py:230-306 | a request on its own, with any of its writes failing, is a run of the protocol with the stated end |
| AuditWebhook.Collector.Accept | backend/zentinelle/integrations/astrolift_audit.py:230-306 | the webhook's body from the idempotency check on reaches that same end state; it rejects exactly a wrong key, an unreadable time and a payload that declares no spend; the marker stays unless a write failed; the one row is the named organisation's tenant's; what is charged, once, is what the payload's fields declare |
| ProviderKeys.PutKeepsTheBound | gateway/providerkey.go:235-256 | whatever entry is evicted, put leaves at most the bound, the new entry, and otherwise only entries that were there |
| ProviderKeys.ProviderKeyCache.Get | gateway/providerkey.go:216-231 | a hit is the unexpired entry; an expired one is dropped; nothing else changes |
| ProviderKeys.ProviderKeyCache.Put | gateway/providerkey.go:235-256 | the cache after put is one that expiry and arbitrary eviction allow |
| ProviderKeys.GatewayCredential.Current | gateway/gatewaycredential.go:128-136 | the file is read only while no credential is held, and at most once an interval |
| ProviderKeys.GatewayCredential.Reread | gateway/gatewaycredential.go:139-165 | reports a change exactly when the credential in hand is now another |
| ProviderKeys.ReadsPrefixedText | gateway/gatewaycredential.go:49-70 | a file gives a credential if and only if its trimmed text is the prefix and at least sixteen characters |
| ProviderKeys.ReadsAreAnIntervalApart | gateway/gatewaycredential.go:147-165 | any two reads of the file lie their number of intervals apart |
| ProviderKeys.Resolver.Ask | gateway/providerkey.go:88-98 | a second lookup is made if and only if the first reply was 401 or 403, the file may be read again, and it gives another credential |
| ProviderKeys.Resolver.Resolve | gateway/providerkey.go:71-109 | Zentinelle is asked exactly when a credential is held and no live answer cached; the last reply decides: unavailable if and only if it is neither a 200 with a key nor a 404 that says not-found, a tenant key if and only if it is that 200's, the environment's only after that 404; only those two replies are cached |
| ProviderKeys.ClassifiedRight | gateway/providerkey.go:137-169 | every reply but those two is no answer, and exactly 401 and 403 are refusals |
| ProviderKeyRuns.CacheStaysBounded | gateway/providerkey.go:235-256 | over every run of lookups, evictions, rotations and clock steps the cache stays within its bound |
| ProviderKeyRuns.TenantKeysComeFromTheBackend | gateway/providerkey.go:71-109 | a tenant key served was the backend's answer for that agent and provider at most a TTL and a lookup ago |
| ProviderKeyRuns.StaleAnswersRunOut | gateway/providerkey.go:216-256 | an answer acted on is the backend's current one unless the stored key changed less than a TTL and a lookup ago |
| ProviderKeyRuns.StaleUntilTheBound | gateway/providerkey.go:216-256 | a run that serves a rotated key at the last instant before that |
| ProviderKeyRuns.TtlIsTheBoundExactlyWhen | gateway/README.md:66-69 | nobody is ever served a stale answer past the TTL since the change if and only if a lookup's answer is cached within one tick |
| ProviderKeyRuns.EnvKeyNeedsAnAnswer | gateway/providerkey.go:71-109 | in every run the environment's key is served only if allowed, never after a failed lookup, and only if no credential was held then or the backend had answered not-found at most a TTL and a lookup ago |
| ProviderKeyRuns.FailedLookupsGetNoKey | gateway/providerkey.go:88-103 | in every run a request whose lookup failed ends without a key of either kind |
| RateLimiter.NoWindowHoldsMore | backend/zentinelle/api/middleware.py:103-146 | no window anywhere in time holds more admissions than the burst limit |
| RateLimiter.WaitingGetsIn | backend/zentinelle/api/middleware.py:131-134 | whoever waits the advertised Retry-After with no admission in between gets in |
| RateLimiter.RetryAfterOverasks | backend/zentinelle/api/middleware.py:131-134 | the advertised wait exceeds the needed one by more than the window less a second and at most by the window |
| RateLimiter.AdmissionKeepsStep | backend/zentinelle/api/middleware.py:117-144 | the pruned list with the new time answers every later window as the full history does |
| RateLimiter.OldHistoryNeedsNoList | backend/zentinelle/api/middleware.py:114-118 | an expired entry is as good as the history it forgot |
| RateLimiter.Limiter.CheckRateLimit | backend/zentinelle/api/middleware.py:86-146 | admits exactly when fewer than floor(1.5 limit) admissions of the full history lie in the window, whether or not the entry expired |
| RateLimiter.Limiter.Reset | backend/zentinelle/api/middleware.py:148-151 | forgets the history and the entry |
| SessionIdle.Session.Request | backend/zentinelle/api/middleware.py:29-41 | signs out exactly when the stamp is older than the timeout, rewrites it at most once a minute, and keeps the lag below a minute |
| SessionIdle.StampLagsByLessThanAMinute | backend/zentinelle/api/middleware.py:34-39 | after any ordered requests the stamp lags the last one by less than 60 s |
| SessionIdle.IdleDecidesSigningOut | backend/zentinelle/api/middleware.py:29-41 | idle longer than the timeout is signed out; idle at most the timeout less 59 s never is |
| SessionIdle.IdleBoundsAreTight | backend/zentinelle/api/middleware.py:29-41 | for every idle time between the two bounds both outcomes occur |
| Metrics.FoldingStaysBounded | gateway/metrics.go:52-60 | any increment or observation keeps at most the bound's series and one overflow series |
| Metrics.CounterVec.Inc | gateway/metrics.go:52-60 | the series together count every increment, folded or not; labels are folded only when new and beyond the bound |
| Metrics.CounterVec.CountsAreExactBelowTheBound | gateway/metrics.go:52-60 | until the distinct labels outgrow the bound, each series is the exact count of its label over all increments |
| Metrics.ObservationIsHeld | gateway/metrics.go:87-108 | one more observation under any label keeps every summed bucket equal to the number of observations at or below it |
| Metrics.HistogramVec.Observe | gateway/metrics.go:87-108 | the series together stay the histogram of all observations |
| Metrics.HistogramVec.DurationTotal | gateway/metrics.go:292-302 | the total over the series is the histogram of all observations, in whatever order they are added |
| Metrics.BucketDifferences | gateway/metrics.go:329-334 | neither uint64 subtraction of a bucket wraps |
| Metrics.EmfRecord | gateway/metrics.go:311-343 | the record's counts add up to the requests finished since and describe their distribution at every bucket bound |
| Metrics.LatencyRecord | gateway/metrics.go:39-41 | and so with the gateway's own latency buckets |
| Metrics.QuantilesAreNeverFlattered | gateway/metrics.go:304-310 | a quantile read from the record is at least the true one if and only if that is at most a minute |
| Metrics.QuantilesAreTightToTheBucket | gateway/metrics.go:304-310 | no lower bucket bound reaches the true latency |
| Metrics.EveryRankReads | gateway/metrics.go:311-343 | every rank has a reading |
| Stream.StreamResponse | gateway/stream.go:52-107 | whatever the chunks and wherever the client breaks off, metering gets the first min(length, limit) bytes, the client a prefix, nothing is written after a failed write, and no error means the whole body |
| Stream.ReadAllLimited | gateway/stream.go:128-160 | a limited read is the body up to the limit, and breaks only where the body does |
| Stream.CopyResponse | gateway/stream.go:120-141 | an oversize or broken body reaches the client with no byte and no status; a body whose read breaks is handed on as nothing, any other as its first limit + 1 bytes; no error means the whole body |
| Stream.BufferResponse | gateway/stream.go:158-168 | succeeds exactly for whole bodies within the limit, without touching the client |
| Stream.DeliverBuffered | gateway/stream.go:199-211 | one status, a prefix of the body, and all of it unless the write fails |
| Stream.ChunkingDoesNotMatter | gateway/stream.go:68-107 | two chunkings of one body meter the same, end the same and, within the limit, leave the client the same bytes |
| Usage.MergeIsAJoin | gateway/usage.go:122-130 | merging is the least upper bound: associative, commutative, idempotent |
| Usage.MergeAllConcat | gateway/usage.go:65-74 | the merge of two lists of usage objects is the merge of their merges |
| Usage.ExtractUsage | gateway/usage.go:65-120 | the loops compute the merge of every usage object of a JSON object, a JSON array or an event stream |
| Usage.StreamIsItsLines | gateway/usage.go:94-112 | a body that does not start like JSON is read line by line, blank ones included |
| Usage.UsageOfJoinedStreams | gateway/usage.go:65-120 | two stretches of a stream joined by a newline report the merge of what each reports |
| Usage.CutStreamsReportNoMore | gateway/usage.go:65-120 | a cut stream never reports more than the whole, provided the line it broke reports nothing |
| Usage.CutAtALineBoundaryReportsNoMore | gateway/usage.go:65-120 | in particular a stream cut at a line boundary never does |
| Usage.MergeIsMaxPerField | gateway/usage.go:122-130 | each field of the result is the maximum over the stream |
| Usage.CumulativeStreamsReportTheirLast | gateway/usage.go:65-130 | for cumulative counts each field is the last value the stream reported for it |
| Usage.CacheInsidePromptExactlyWhen | gateway/usage.go:122-173 | for the usage objects of an Anthropic response, field maxima keep the cache counts inside the prompt count, whatever the uncached counts, if and only if one event attains both cache maxima |
| Usage.CumulativeResponsesKeepCacheInsidePrompt | gateway/usage.go:65-173 | so every Anthropic response with cumulative cache counts is reported with them inside its prompt count |
| Usage.SseText | gateway/stream.go:216-231 | the loop computes `StreamText`, of which the next two rows say what it holds |
| Usage.EveryPayloadIsJudged | gateway/stream.go:213-231 | for every line of blanks, "data:", blanks, a trimmed payload and blanks, neither empty nor the end marker, the text of a body around it is the text before, the payload on a line of its own, and the text after |
| Usage.NothingElseIsJudged | gateway/stream.go:213-231 | and every other line adds nothing to it |
| UsageShapes.BillIsRead | gateway/usage.go:164-214 | round trip for every shape (Chat Completions, Responses, Anthropic, Gemini in either spelling, others) and all counts: a usage object that holds the counts under the shape's own names is read as exactly them, each in its own field |
| UsageShapes.UsageIsFoundExactly | gateway/usage.go:132-162 | the object found is the first of those at the top level, under usageMetadata, in a response and in a message, and none if and only if there is none |
| UsageShapes.BodyReportsItsBill | gateway/usage.go:76-90 | a JSON body, blanks around it or not, is extracted as exactly the counts it was written from |
| UsageShapes.ArrayReportsItsBills | gateway/usage.go:90-93 | a JSON array of objects and nulls as the largest of each count over its elements |
| UsageShapes.EventReportsItsBill | gateway/usage.go:94-112 | an event of a stream as its counts, merged into what stands before and after it reports |
| UsageShapes.OtherLinesReportNothing | gateway/usage.go:94-112 | any other line of a stream, one without "sage" in its payload included, adds nothing |
| UsageShapes.OtherJsonReportsNothing | gateway/usage.go:83-93 | a body that starts like JSON and is neither an object nor an array of objects and nulls reports nothing |
| Text.JoinOfSplit | gateway/provider.go:175-184 | joining the pieces of a split gives the text back |
| Text.SplitOfJoin | gateway/provider.go:175-184 | splitting joined pieces gives the pieces back |
| Text.SplitAtSeparator | gateway/stream.go:218 | splitting at a separator is splitting both sides |
| Text.SplitMore | frontend/hooks/use-chat.ts:226-230 | more text changes only the last, unfinished piece |
| Text.TrimOf | gateway/usage.go:96-101 | trimming takes the blanks at both ends off and nothing else |
| Text.TrimTakes | gateway/usage.go:96-101 | and every text is what is left of it between blanks |
| Routes.DetectedExactly | gateway/provider.go:68-107 | which paths detect which provider and what remains of the path, in both directions |
| Routes.OpenAIRequestsExactly | gateway/provider.go:68-126 | a POST is forwarded to OpenAI exactly for a listed route, alone or after the provider's name, where the version may be missing |
| Routes.AnthropicRequestsExactly | gateway/provider.go:68-126 | and to Anthropic exactly for a listed route, where `/v1/complete` needs the name |
| Routes.GoogleRequestsExactly | gateway/handler.go:150-157 | and to Google exactly when the cleaned path is on the route |
| Routes.StableGooglePathsNeedTheName | gateway/provider.go:95-119 | a `/v1/models` path of Google's route sent alone is refused |
| Routes.ModelOfGooglePath | gateway/handler.go:465-475 | the segment between `/models/` and the colon is read back whole |
| Routes.PolicySeesTheModel | gateway/handler.go:465-493 | for every target forwarded to and every body, the model asked about is, of Google, the one in the forwarded path, and of the others exactly the string under "model" of a nonempty JSON body, or none where there is no such string |
| Query.UnescapeOfEncode | gateway/provider.go:177 | every spelling of a text, in hex of either case or plain (section 2.1 of RFC 3986), decodes to it |
| Query.EncodeOfUnescape | gateway/provider.go:177 | and what decodes to a text is one of its spellings |
| Query.WithoutKeyParam | gateway/provider.go:170-186 | the loop computes the join of the parameters that are not `key` |
| Query.ParametersLeft | gateway/provider.go:175-184 | the result's parameters are the others, whole and in order |
| Query.NoKeyIsLeft | gateway/provider.go:165-186 | no parameter whose decoded name is `key` is left |
| Query.UnchangedExactlyWithoutKey | gateway/provider.go:165-186 | the query is unchanged if and only if it had none |
| Query.FilterIsIdempotent | gateway/provider.go:170-186 | filtering twice is filtering once |
| Query.DroppedExactlyWhenSpelledKey | gateway/provider.go:175-183 | a parameter is dropped if and only if what stands before its first equals sign, or all of it, is some spelling of `key` |
| Query.EachIsJudgedAlone | gateway/provider.go:175-184 | each parameter is kept or dropped by itself, in order |
| Handler.MeteredOnceExactlyWhenAnswered | gateway/handler.go:318-457 | at most one provider call, one report if the provider responded and none otherwise, one answer to the client, at most one block |
| Handler.CalledOnlyWhenAllowed | gateway/handler.go:209-319 | before a provider call lie exactly the policy check of that target, its approval and a resolved key |
| Handler.DeliveredOnlyWhenCleared | gateway/handler.go:353-397 | under an output filter the provider's bytes go to the client only right after the filter allowed them |
| Handler.FilterIsAskedSixth | gateway/handler.go:353-378 | the filter is asked at one place of the sequence |
| Handler.TheOnlyReport | gateway/handler.go:342-351 | a finished request makes one report |
| Handler.Gateway.Refusal | gateway/handler.go:127-196 | what is refused before the policy is asked, in both directions, and under which status |
| Handler.Gateway.Inspect | gateway/handler.go:353-391 | a withheld or uninspectable response leaves the client the gateway's own error only; the filter judges the whole decoded body; the report is of all that was read, and says filtered if and only if the request counts as blocked |
| Handler.Gateway.Forward | gateway/handler.go:393-449 | a response without filter is delivered, then reported for what was read of it, but for nothing of a copied one that broke, with the outcome settled by the body, the limit, the client's connection and its context |
| Handler.Gateway.HandleProxy | gateway/handler.go:121-457 | for every request and every answer of its surroundings the effects come in an allowed order, the policy is asked about the target and the model the request is for, the call is metered exactly when the provider responded and under the right outcome, at most one status is written, and an error answer's status names the step that failed |
| Handler.WriteFailureIsNamedExactly | gateway/handler.go:401-428 | of every delivered response within the limit whose write failed, the client is named if and only if it was streamed without a filter or the context has ended, and the provider otherwise |
| Handler.CopiedWriteFailureIsPutOnTheProvider | gateway/handler.go:401-428 | a request for which that happens |
| Handler.MetersTheExtractedUsage | gateway/handler.go:342-351 | with the gateway's own reader the report is of the usage extracted from what is metered of the body |
| Handler.MetersTheBill | gateway/handler.go:342-351 | so a JSON response read whole is metered at exactly the counts its usage object was written from, whatever the provider's shape |
| Handler.ReadIsMeteredExactlyWhen | gateway/handler.go:342-351 | that is everything read, up to the limit, if and only if the response was not copied and ended by a read error after some of it was read |
| Handler.BrokenCopyIsMeteredAtNothing | gateway/stream.go:128-131 | for every text, a copied response that carries it and breaks is metered at no usage |
| Handler.JudgesTheStreamText | gateway/handler.go:371-374 | the filter judges the text of all data lines of a streamed body: every payload but the end marker is in it, whole and in its place |
| Handler.Gateway.ServeProxied | gateway/handler.go:56-81 | each proxied request counts once, and is blocked as often as its effects say |
| Handler.BlockedNeverExceedsRequests | gateway/handler.go:72-80 | at every moment of every interleaving blocked is at most requests, and is the number of blocked requests |
| Handler.ReportedCountersAgreeExactlyWhen | gateway/heartbeat.go:138-148 | over every run a snapshot reports no more blocked than requests if and only if the requests begun and blocked between the loads are no more than the earlier ones that are not blocked |
| Handler.ReportedCountersAgreeWithoutNewBlocks | gateway/heartbeat.go:138-148 | in particular if no request begun in between is blocked in between |
| Handler.ReportedExcessIsBounded | gateway/heartbeat.go:138-148 | the excess is at most the requests begun and blocked in between |
| Handler.ReportedExcessIsAttained | gateway/heartbeat.go:138-148 | for every number of earlier requests and every number begun in between there are runs in which all of the latter are in excess |
| Heartbeat.AgentSet.Add | gateway/heartbeat.go:109-124 | a new agent is added while the bound is not reached |
| Heartbeat.SeenCountsDistinctAgents | gateway/heartbeat.go:103-130 | over any calls the count is the distinct agents until the bound, and the bound from then on |
| Heartbeat.EveryIncrementIsInOneWindow | gateway/heartbeat.go:337-389 | the delivered beats' windows partition every counter's history |
| Heartbeat.HealthyExactlyWithoutFailures | gateway/heartbeat.go:154-165 | a delivered beat says healthy if and only if its window holds no failed check and no failed lookup |
| Heartbeat.EveryFailureIsReported | gateway/heartbeat.go:154-165 | every failure up to the last delivered snapshot lies in exactly one window, whose beat is not healthy |
| Heartbeat.UnhealthyExactlyWhenAKindFailed | gateway/heartbeat.go:154-165 | and unhealthy if and only if of one kind of call some failed and none was answered |
| Heartbeat.Backoff | gateway/heartbeat.go:424-433 | the loop computes min(10 s doubled n - 1 times, 300 s) |
| Heartbeat.BackoffIsPaced | gateway/heartbeat.go:424-433 | the back-off never shrinks with more failures, lies in 10 to 300 s, and is 300 s from the sixth on |
| Heartbeat.Jitter | gateway/heartbeat.go:437-443 | a delay moves by at most a tenth |
| Heartbeat.JitterReachesEveryDelay | gateway/heartbeat.go:437-443 | and every delay within the tenth is drawn |
| Heartbeat.Heartbeat.SendBeat | gateway/heartbeat.go:337-390 | at most two posts of one body, the second exactly after a 401 or 403 when the file gives another credential; delivered exactly on an acknowledgement with a status from 200 to 299, not registered exactly on a 404; the window and the interval move only when delivered, the interval to what is asked for inside 10 s to an hour |
| Heartbeat.Heartbeat.AwaitNewCredential | gateway/heartbeat.go:319-332 | resumes exactly when a look finds a credential other than the refused one, at least an interval later |
| Heartbeat.Heartbeat.TakeTurn | gateway/heartbeat.go:264-311 | one pass of the loop keeps windows and pacing and goes on exactly when the context and the outcome let it |
| Heartbeat.StopsExactly | gateway/heartbeat.go:264-332 | a turn is the last if and only if the context ends in it or, after a 404, no look in a file before that finds a credential other than the one last presented |
| Heartbeat.Heartbeat.Run | gateway/heartbeat.go:259-313 | over any turns the windows chain through the delivered snapshots, the beats are paced, and the run stops only where a turn stops it |
| Heartbeat.BeatsAreApart | gateway/heartbeat.go:259-332 | in every run two beats in a row are at least 9 s apart, with at most two posts each and an interval of 10 s to an hour |
| Heartbeat.FailuresBackOff | gateway/heartbeat.go:280-286 | after n failures in a row the wait is within a tenth of min(10 * 2^(n-1), 300) s |
| Heartbeat.FailuresSinceTheLastEnd | gateway/heartbeat.go:270-304 | the failures in a row are those since the last delivered beat or 404, whatever beats were not sent in between |
| Heartbeat.OthersWaitAnInterval | gateway/heartbeat.go:279-305 | and after any other beat the wait is within a tenth of the interval in force |
| ChatLines.ReadReply | frontend/hooks/use-chat.ts:219-360 | whatever the chunks, the outcome is that of the whole text's complete lines, also for a cancelled or broken connection |
| ChatLines.HandleLines | frontend/hooks/use-chat.ts:232-347 | the lines of a chunk are handled up to the first that ends the reply |
| ChatLines.PayloadExactly | frontend/hooks/use-chat.ts:232-237 | a line is handled if and only if it is blanks, "data: ", a payload that is not empty and does not end in a blank, and blanks, and then for that payload |
| ChatLines.NothingAfterTheEnd | frontend/hooks/use-chat.ts:238-250 | text after the end marker or an error changes nothing |
| ChatLines.LastLineNeedsItsNewline | frontend/hooks/use-chat.ts:221-230 | a last line without its newline is never handled |
| ChatLines.EndsAsItsLineSays | frontend/hooks/use-chat.ts:238-250 | a reply ends at its first ending line: finished if that is the end marker, else failed with that line's own error |
| ChatLines.AttachResult | frontend/hooks/use-chat.ts:304-322 | the downward loop changes exactly the last waiting call of that name, or none |
| ChatLines.AttachAnswersTheLastWaiting | frontend/hooks/use-chat.ts:304-322 | the result goes to the last waiting call and nowhere else |
| ChatLines.ResultsReachTheirCallsExactlyWhen | frontend/hooks/use-chat.ts:304-322 | in a stream of matched calls and results every result reaches its own call if and only if none comes while a later call of its name still waits |
| ChatLines.OneAtATimeIsInTurn | backend/zentinelle/services/llm_provider.py:594-614 | streams of any length that answer each tool call before the next one meet that condition |
| ChatLines.ToolsOneAtATimeShowTheirResults | frontend/hooks/use-chat.ts:304-322 | so each of their calls is shown with its own result |
| ChatLines.TwinCallsAreAnsweredInReverse | frontend/hooks/use-chat.ts:304-322 | outside the condition, two waiting calls of one name get each other's results |
| ChatLines.MessageIsItsEvents | frontend/hooks/use-chat.ts:244-342 | the message is that of the events before the end, applied in order, results included |
| ChatLines.AppliedEventsMakeTheMessage | frontend/hooks/use-chat.ts:252-342 | its text, its calls with their arguments and hashes, its actions and its links are those of the events in order, none dropped, doubled or moved |

## Left out

- HTTP, TLS, connection pools, signals and goroutine scheduling: step relations and supplied answers stand for them.
- JSON, gzip, regular expressions and path cleaning: parameters; the route languages are predicates.
- Hashing, HMAC signatures, bcrypt and the drawing of random IDs.
- White space outside ASCII, and the incremental UTF-8 decoder in front of the chat hook's buffer.
- Sums of latencies in floating point, and the rendered metrics text.
- Metrics.CounterVec.Inc: counts without the uint64 wrap at 2^64; the subtractions of the CloudWatch record are modelled with theirs, below a premise that fewer requests than that were seen.
- Usage.ExtractUsage: token counts are unbounded integers, so the int64 wrap of a sum and the conversion of a float beyond int64 are not modelled.
- Stream.CopyResponse: a limit of 2^63 - 1, at which the limit plus one wraps and the body reads as empty, is not modelled; the same holds for Stream.BufferResponse.
- Stream.StreamResponse: flushing and copied headers; headers of Stream.DeliverBuffered likewise.
- AuditWebhook.Collector.Accept: everything before the idempotency check (signature, timestamp, envelope parsing), and the several metric rows of one spend record, which are one record here.
- RateLimiter.Limiter.CheckRateLimit: two checks of one key that interleave between cache get and set, which can lose an admission.
- ProviderKeys.ProviderKeyCache.Put: Go's map order is any order, so which entry is evicted is left open rather than modelled.
- Handler.Gateway.HandleProxy: header filtering, request building, logging, latency metrics and interaction logging, which promises nothing.
- Heartbeat.Heartbeat.Run: log lines and the identity headers; time spent outside waits and posts is part of the supplied durations.
- ChatLines.ReadReply: React state beyond the assistant's message, and the request that precedes the read loop.
- The policy engine, audit chain, budget admission and event outbox services, of which the repository shows only migrations.
- OIDC, roles, serializers, settings, the database router, and the rest of the frontend: short branches that one reading settles.
