# Bridge model

The bridge keeps one WebSocket to an OpenClaw gateway, which drops and reconnects. It answers HTTP
requests by calls over that socket, and forwards the gateway's events to webhooks. This project models
the parts where state and concurrency meet and proves what they promise.

| module | models |
|---|---|
| `Mux`, `RpcClient`, `RequestIds` | the multiplexer: many calls, one reader, timeouts, teardown, reconnect; the handshake; request ids |
| `Pipeline`, `HealthyRuns` | event handlers and send requests interleaved over cache, tables, clock and restarts |
| `Alone`, `EveryRun` | what a task does when nobody interrupts it: the sequential handlers, in both directions |
| `Offers` | from a handler's decision to the address it offers its event to |
| `Survival` | when a new delivery setting outlives the tasks that are still busy with an older one |
| `Delivery`, `DeliveryRuns`, `Storage` | the delivery cache in front of its table, the message handler, the dedupe table |
| `Inbound`, `SessionKeys`, `SendLaws` | the send endpoint, creation of missing sessions, session and dedupe keys; what all that means in terms of a request's own fields |
| `Fingerprint`, `JsonText`, `Frames`, `GoText` | the outbound fingerprint, JSON lexing, frame fields, Go's string functions |
| `Tty`, `Webhook` | terminal output cleaning and the read loop; webhook retries with backoff |

Code that changes state in place is written as classes and loops (`Storage.Store`, `Delivery.App`,
`RpcClient.Client`, `Inbound.Server`, `Tty.ReadOutput`, `Webhook.SendToURL`), each proved against a function
or predicate that the lemmas are about. What these functions themselves compute is stated apart from their
bodies: over paths into a frame, over the fields of a request, over the texts that terminal frames carry, over
the pieces of an identifier, or over whole runs. `Mux` and `Pipeline` are labelled step machines: a step is one
critical section, one statement on the database, one channel action, or one start or end of an outside
call. Their theorems speak of every state some run reaches. `Alone` and `EveryRun` tie the machine of
`Pipeline` to the sequential handlers: a task that nobody interrupts can do what its sequential form says,
and whatever run it makes by itself, from its start to its end, is the sequential form in some environment.

Behaviours the proofs bring out, with the exact condition for each:

- `docs/manual-tecnico-api-go.md:324` says the dedupe lifetime is governed by
  `DEDUPE_RECORD_TTL_SECONDS`. The code differs: nothing calls the cleanup, and registration never looks at
  the expiry, so a key is refused for good (`Storage.ExpiryAloneDoesNotFree`, `Storage.AcceptancesApart`).
- Repeated input is ignored, as `docs/manual-tecnico-api-go.md:318-319` promises, but what counts as a
  repetition includes one after an attempt that failed: a key is spent before the callback address is checked
  and before anything is sent. `Inbound.RepeatRefusedIff` says exactly when a repetition is refused. Events
  whose webhook failed are not offered again either (`Delivery.OfferedOnce`, `Delivery.OfferedIff`).
- Deduplication fails open: on a disabled or failing store repetitions go through. `Delivery.DuplicateIff` and
  `Inbound.DuplicateIff` give the exact conditions, `Pipeline.FrameOfferedOnce` speaks of handlers whose own
  insert succeeded, and `HealthyRuns` of runs without faults.
- "The last set wins" holds for tasks one at a time (`DeliveryRuns.CacheRefinesLifetimeMap`) and not for
  overlapping ones. `Survival.SettingStaysIff` names every position of another task from which a newer
  setting can be undone and shows that there is no other; two lemmas give runs that lose one.
- A call can be stranded: one that reads the connection, and registers only after that connection's teardown
  has taken the map, is in nobody's hand. Unless a later connection comes, only its own write error or
  timeout ends it (`Mux.StrandedIffLate`).

## Model

| member | source | states |
|---|---|---|
| Mux.RepliesNeverLost | internal/wsclient/client.go:519-576 | in every run with any number of calls and reconnects, a reply channel gets at most one reply in its life, no non-blocking send ever takes its default branch, and a channel has at most one holder among the live map, the resolver and the clearer, which holds it untouched |
| Mux.WaitersAreServed | internal/wsclient/client.go:470-517 | a waiting call has its one reply in its channel or the channel is held: while its connection is not torn down, by the map or the resolver of that connection, which is still active; afterwards, by its teardown exactly when the call was not late |
| Mux.StrandedIffLate | internal/wsclient/client.go:461-474 | an unanswered call waiting on a torn-down connection is in nobody's hand, until a later connection is dialed, exactly when it registered after that connection's swap; it then lies in the map, where only a later connection finds it |
| Mux.StrandedHappens | internal/wsclient/client.go:461-495 | a run that leaves such a call waiting with no connection at all |
| Mux.TeardownNotifiesAll | internal/wsclient/client.go:563-576 | once a teardown's notification has ended, every call that was in the swapped-out map was sent exactly the closing reply |
| Mux.TeardownFinishes | internal/wsclient/client.go:563-576 | from every reachable state where a teardown begins, swapping, notifying and finishing alone lead to its end: connection gone, map empty, exactly the calls that were in the map failed, the others untouched |
| Mux.MapHoldsOnlyLiveCalls | internal/wsclient/client.go:471-474 | every live entry belongs to a call between registration and unregistration, and with no such call the map is empty |
| Mux.EntriesAreOnesOwn | internal/wsclient/client.go:470-474 | registering never overwrites a live entry, and unregistering never removes another call's |
| Mux.CallsGetTheirOwnAnswer | internal/wsclient/client.go:497-543 | a call that returns a frame returns a response carrying its own id, the one frame routed to it |
| Mux.CallsEndAsTold | internal/wsclient/client.go:497-516 | in every run a call ends with a frame only if that frame was its reply, with a lost connection only if a teardown failed it, unconnected only if nothing was ever sent to it; a reply it was sent is missed only by a timeout or a failed write |
| Mux.OutcomesHaveCauses | internal/wsclient/client.go:460-517 | each outcome arises in one way only: the frame or failure received from the call's own channel, its timeout, its failed write, or no active connection when it asked; and an outcome never changes |
| Mux.AnsweredCallReturns | internal/wsclient/client.go:497-516 | a waiting call with a reply in its channel returns that reply by its own next two steps and leaves the map |
| Mux.ConnectsIfActive | internal/wsclient/client.go:460-468 | a call gets the active connection, and fails as unconnected exactly when there is none |
| Mux.FailuresEndCalls | internal/wsclient/client.go:483-503 | a failed write and a timeout end the call with that outcome, a successful write lets it wait |
| Mux.ServeAfterFailures | internal/wsclient/client.go:111-145 | failures before the handshake is complete close the connection, a failed automatic message starts its teardown, an undecodable frame is passed over |
| Mux.FramesAreConserved | internal/wsclient/client.go:138-164 | every decoded frame goes to exactly one call or one handler, never both, no two frames to one place, and handlers are started for nothing else |
| Mux.AnswersReachTheirCall | internal/wsclient/client.go:519-537 | a response carrying the id of a call in the map is handed to that call and to no handler |
| Mux.ServeIdsApart | internal/wsclient/client.go:291 | the ids of connect requests and automatic messages, although the latter look like those of sends, are no call's id and never in the map |
| Mux.ServeAnswersAreHandled | internal/wsclient/client.go:438-454 | so an answer to the automatic message resolves no call and goes to a handler |
| Mux.ResolvedInTwoSteps | internal/wsclient/client.go:519-543 | the machine's reading and handing over, uninterrupted, do what the client's resolvePending does |
| Mux.ActiveConnectionIsHandshaken | internal/wsclient/client.go:111-136 | over the whole reconnect loop the active connection has finished its handshake and was not closed by Serve, and calls write only on connections that finished theirs |
| Mux.WritersMeetIffAuto | internal/wsclient/client.go:438-495 | two goroutines can be writing to one connection at the same time exactly when the message on connect is switched on, which is written without the lock |
| Mux.AutoOverlaps | internal/wsclient/client.go:438-454 | a run in which the automatic message and a call are written together |
| Mux.NextKeeps | internal/wsclient/client.go:460-576 | the ownership, identity, gate and conservation invariant is kept by every step |
| RpcClient.Client.ResolvePending | internal/wsclient/client.go:519-543 | a frame is consumed exactly when it is a response whose id is waited for; then its entry is gone, its channel holds a reply and no other channel changed |
| RpcClient.Client.ClearActiveConn | internal/wsclient/client.go:563-576 | connection and map are emptied and every channel that was in the map holds a reply, the failure unless it had one |
| RpcClient.Client.Register | internal/wsclient/client.go:470-473 | a call gets a fresh empty channel under its id |
| RpcClient.Client.UnregisterPending | internal/wsclient/client.go:545-549 | only the call's own id leaves the map |
| RpcClient.Client.NextID | internal/wsclient/client.go:456-458 | the counter advances by one and wraps at 2^64 |
| RpcClient.ReplyChan.TrySend | internal/wsclient/client.go:538-541 | a send into a full one-slot channel changes nothing |
| RpcClient.WaitForChallenge | internal/wsclient/client.go:376-404 | for any sequence of reads the challenge is reported exactly when it comes before any error, a timeout first means none came, and everything up to there is consumed; nothing is read when its deadline cannot be set |
| RpcClient.WaitForConnectResponse | internal/wsclient/client.go:411-436 | the wait ends at the first response with the connect id, whatever undecodable or foreign frames come before it, accepts it exactly when it has no non-null error, and consumes exactly up to it |
| RpcClient.Handshake | internal/wsclient/client.go:276-336 | the handshake completes exactly when both deadlines can be set, the challenge comes or times out, the request is written, the first response with its id comes before any error and reports none, and the deadline can be cleared |
| RpcClient.ReadsMean | internal/wsclient/client.go:392-435 | challenge, answer and acceptance by the places in the frame: the type, the event name, the id, and nothing but null at `error` |
| RpcClient.CompletesHere | internal/wsclient/client.go:276-336 | with the challenge wait over, a handshake can complete exactly when the read its answer wait ends at is an accepted answer |
| RpcClient.EndsAreUnique | internal/wsclient/client.go:376-436 | the ends of both waits are determined by what arrives |
| RequestIds.DecimalRoundTrip | internal/wsclient/client.go:169 | a printed counter reads back as itself, so decimal printing is injective |
| RequestIds.IdTextInjective | internal/wsclient/client.go:188-213 | an id determines its form (send, create, create fallback or connect) and its number |
| RequestIds.RequestIdsDistinct | internal/wsclient/client.go:456-458 | ids coincide exactly for one kind and equal counters modulo 2^64 |
| Pipeline.FrameOfferedOnce | internal/app/app.go:124-155 | in every run, with faults and restarts, two handlers of the same bytes that both got to a webhook after their own insert are more than the lifetime apart with a cleanup in the run |
| Pipeline.KeySentOnce | internal/httpapi/server.go:172-217 | the same for messages the gateway accepted under one scoped inbound key |
| Pipeline.RefusedFrameWasSeen | internal/app/app.go:124-137 | no event is dropped for another's sake: a frame refused as duplicate met a row inserted by a handler of the very same bytes, and inbound keys never interfere |
| Pipeline.RefusedRequestWasSeen | internal/httpapi/server.go:172-181 | a request refused as duplicate met another request's row, of the same session and dedupe key when neither key has a colon |
| Pipeline.SessionIsolation | internal/app/app.go:102-158 | in every interleaving an event is offered only to the default webhook or to an acceptable address that a request, not a refused one, stored for exactly this trimmed session key; one without a key only to the default; and only forwarded events are offered |
| Pipeline.OfferComesFromRequest | internal/app/app.go:174-229 | the same for any rules, naming the request that first stored the address for the key |
| Offers.OffersAsDecided | internal/app/app.go:148-152 | in every interleaving a handler that decided on a setting offers to its callback exactly when that is not blank, and to the default otherwise |
| Offers.NextKeepsBound | internal/app/app.go:102-155 | every step of any task keeps a decided handler bound to its setting |
| Pipeline.RegisterKeepsBooks | internal/store/store.go:141-159 | an insert keeps the books: one owner for each row, who has the ticket for its key, and each refusal names that owner |
| Pipeline.NextKeepsBooks | internal/app/app.go:72-160 | every step of handlers, requests, clock, cleanup and restart keeps the books |
| Pipeline.NextKeepsIsolated | internal/app/app.go:174-242 | every step keeps cache, table, handlers in flight and offers within what was stored for their key by requests that were let through |
| Pipeline.NextKeepsSpaced | internal/store/store.go:141-167 | every step keeps successful inserts of one key more than the lifetime apart |
| HealthyRuns.EachFrameOfferedOnce | internal/app/app.go:124-155 | in every run on a healthy, uncleaned store at most one handler of byte-identical frames gets to a webhook |
| HealthyRuns.EachKeySentOnce | internal/httpapi/server.go:172-217 | in such runs at most one message per session and dedupe key is accepted by the gateway |
| HealthyRuns.NextKeepsInForce | internal/app/app.go:124-137 | in such runs everybody who gets past deduplication does so by an insert of their own |
| Alone.HandlerAlone | internal/app/app.go:72-160 | for every environment there is a run of this handler's steps alone that ends with the settings, the tables and the offer of the sequential handler |
| EveryRun.EveryHandler | internal/app/app.go:72-160 | and every run of its steps alone, from arrival to end, is the sequential handler in some environment: same settings and tables, and an offer to the same address or none |
| Alone.RequestAlone | internal/httpapi/server.go:144-196 | for every environment there is a run of the request's steps alone with the effect of the local part of the send handler |
| Alone.ForwardAlone | internal/httpapi/server.go:198-222 | the same for its remote part: it counts as sent exactly when the sequential form answers with success |
| EveryRun.EveryRequest | internal/httpapi/server.go:144-223 | every run of a request's steps alone, from arrival to answer, is the sequential handler in some environment and some outside world: same settings and tables, same answer, sent exactly if that is success |
| EveryRun.WorldAnswers | internal/httpapi/server.go:198-222 | any way its calls come back is one that some outside world produces |
| Survival.SettingStaysIff | internal/app/app.go:174-242 | in every interleaving from where a request is about to store its setting, until a newer one is stored, a handler that read it uses it up, the process restarts or its own row cannot be written, the setting stays in cache and table: if and only if no other task of the same trimmed session is in one of the listed positions with something older |
| Survival.NextKeepsSafe | internal/app/app.go:174-242 | without such a task every step keeps the setting, and no step makes a task stale |
| Survival.StaleLoses | internal/app/app.go:195-242 | each such position has a run that takes the setting away |
| Survival.NewerSettingLostHappens | internal/app/app.go:156-158 | from the start, for every forwarded final event of a session, a run that erases from cache and table a setting made since |
| Survival.NewerSettingLost | internal/app/app.go:231-242 | from every state with a handler about to clear and a request about to store for its session, a run without a fault after which no trace of the setting is left |
| Survival.TwoSettersDisagree | internal/app/app.go:174-193 | two requests alone, without a fault: the cache ends with the later setting and the table with the earlier one |
| Delivery.App.HandleMessage | internal/app/app.go:72-160 | the handler's effect on cache and tables and its outcome, under any faults |
| Delivery.App.SetSessionDelivery | internal/app/app.go:174-193 | cache and table after a set; blank keys change nothing |
| Delivery.App.GetSessionDelivery | internal/app/app.go:195-229 | the answer, and cache and table after it: filled from the table, or dropped from both when too old |
| Delivery.App.ClearSessionDelivery | internal/app/app.go:231-242 | cache and table after a clear |
| Delivery.DuplicateIff | internal/app/app.go:102-137 | refused as duplicate exactly when it would be offered, its key is recorded and the store works |
| Delivery.OfferedIff | internal/app/app.go:72-155 | a message is offered exactly when it is wanted, its frame shows the end or its session streams, and a working store has not seen it; it goes to its session's callback, or to the default if that is blank; one that is not offered changes no dedupe key and no other session's settings |
| Delivery.PassesIff | internal/events/events.go:29-47 | six kinds of event are wanted, each under its switch, the three session-bound ones only with a session key |
| Delivery.OnlyDeliveryClears | internal/app/app.go:153-158 | a session's setting is dropped only after a delivery with stream off |
| Delivery.FinalEventUsesUpOverride | internal/app/app.go:156-158 | after a delivered final event with stream off the session is back on the default, at any time and after a restart |
| Delivery.OfferedOnce | internal/app/app.go:124-155 | a message that was offered, or refused, is never offered again, even if its webhook failed |
| DeliveryRuns.CacheRefinesLifetimeMap | internal/app/app.go:174-242 | without restarts a lookup returns the last setting exactly while its age is at most the lifetime, else the default |
| DeliveryRuns.AnswerIsExpected | internal/app/app.go:195-229 | with restarts the answer is the same, or, exactly when a row older than the lifetime is read from the table, that expired last setting |
| DeliveryRuns.OfferFollowsHistory | internal/app/app.go:102-152 | after any run an event goes to the callback last set for its session and neither expired nor cleared (or, read stale, the last one set), and to the default when there is none or it is blank; it is held back exactly when that setting does not stream and the frame does not show the end |
| DeliveryRuns.CacheEqualsTable | internal/app/app.go:174-242 | without restarts cache and table stay equal |
| DeliveryRuns.RunInvariant | internal/app/app.go:174-242 | every run keeps the cache inside the table and each row equal to the last setting of its key |
| DeliveryRuns.StaleAnswersBounded | internal/app/app.go:209-217 | over a whole run a key gets at most one expired answer per restart |
| DeliveryRuns.StaleAnswerHappens | internal/app/app.go:209-217 | and that one does happen |
| Storage.Store.RegisterDedupeKey | internal/store/store.go:141-159 | insert if absent, the answer, and the fail-open and blank-key cases, under a fault before or after the statement took effect |
| Storage.Store.CleanupExpiredDedupeKeys | internal/store/store.go:161-167 | exactly the rows whose expiry has passed go |
| Storage.Store.UpsertSessionDelivery | internal/store/store.go:93-106 | the row of the key is replaced, stamped with the time of the statement |
| Storage.Store.GetSessionDelivery | internal/store/store.go:108-131 | the row, no row, or an error; the expiry is not looked at |
| Storage.Store.DeleteSessionDelivery | internal/store/store.go:133-139 | the row of the key goes and no other |
| Storage.Store.constructor | internal/store/store.go:28-62 | the store is enabled exactly when an address is configured, the database answers and its schema is in place |
| Storage.TableIsStanding | internal/store/store.go:141-167 | after any run of registrations and cleanups a key is in the table exactly when one acceptance of it still stands, with that acceptance's expiry |
| Storage.RefusedIffStanding | internal/store/store.go:141-159 | a registration is refused exactly when an earlier acceptance of its key still stands |
| Storage.AcceptancesApart | internal/store/store.go:141-167 | two acceptances of one key are more than the first one's lifetime apart with a cleanup in between; without cleanups there is at most one ever |
| Storage.ExpiryAloneDoesNotFree | internal/store/store.go:147-158 | an expired key is still refused |
| Inbound.Server.HandleSend | internal/httpapi/server.go:144-223 | the response, the settings and dedupe table, and everything written to the gateway, for any request and any faults |
| Inbound.Server.ForwardMessage | internal/httpapi/server.go:198-222 | send, and on a missing session create and send once more |
| Inbound.ForwardWritesLittle | internal/httpapi/server.go:198-222 | at most two sends and two creates; creates exactly when the first send found no session and creation was asked for, a second send exactly when a create then succeeded; success exactly when the last thing written was an accepted send, which is the one named; otherwise the error of the last thing tried |
| SendLaws.CreatesCarryTheRequest | internal/httpapi/server.go:200-204 | the first create carries the request's own workspace and agent, each where it is not blank, and a second one the session alone |
| SendLaws.SaysNotFoundIff | internal/httpapi/server.go:199 | "session not found" is recognised in any case and anywhere in the error |
| SendLaws.ValidIff | internal/httpapi/server.go:144-166 | a request is valid exactly when it is a POST with a JSON body that has a message and names a session, a complete pair of identifiers or a workspace |
| SendLaws.RefusedFor | internal/httpapi/server.go:144-166 | which of the four refusals an invalid request gets |
| SendLaws.SessionIs | internal/httpapi/server.go:158 | which of its fields names the session of a request |
| SendLaws.StoresItsSetting | internal/httpapi/server.go:183-196 | a request stores its own callback address and mode, streaming unless it says otherwise, exactly when it is valid, no duplicate and its address is acceptable; any other leaves all settings alone |
| SendLaws.HeaderDedupes | internal/httpapi/server.go:168-181 | two requests of one session without body keys but with the same header: on a working store the second is a duplicate that touches nothing |
| SendLaws.BodyKeyDecides | internal/httpapi/server.go:168-171 | a body key that is not blank decides whatever the headers say |
| SendLaws.RecordsKey | internal/httpapi/server.go:168-181 | on a working store a valid request leaves one row for its session and key, and none exactly when body key and header are both blank |
| SendLaws.NoKeyNoDedupe | internal/httpapi/server.go:168-181 | a request without a key is never a duplicate and leaves no row |
| Inbound.DuplicateIff | internal/httpapi/server.go:168-181 | a request is answered as a duplicate exactly when it is valid, has a dedupe key, and a working store has that key for its session |
| Inbound.RepeatRefusedIff | internal/httpapi/server.go:168-211 | a repetition right after a first attempt, however that ended, is refused exactly when the store works now and, at the first attempt, took the insert or had the key |
| Inbound.OneAttemptPerKey | internal/httpapi/server.go:168-211 | on a healthy store, once a request with a dedupe key got past validation, every later one with the same session and key is a duplicate that touches nothing, whatever happened in between but a cleanup |
| Inbound.Gateway.SendSessionMessage | internal/wsclient/client.go:168-185 | one request of a fresh id; an error exactly when the call fails or the answer has a non-null error |
| Inbound.Gateway.CreateSession | internal/wsclient/client.go:187-274 | one or two creates written and how the last answer decides |
| Inbound.FallbackDiffers | internal/wsclient/client.go:204-231 | the second create has an id of its own kind, the same session key and none of the optional parameters the first one carried |
| Inbound.CreateSucceedsIff | internal/wsclient/client.go:187-274 | a create succeeds exactly when the answer to the last request it wrote came, reports no error, and names a key or the caller gave one; the session then has a trimmed, non-empty key and the first request's id |
| SendLaws.CreateEnds | internal/wsclient/client.go:233-273 | the same by paths into the answer: the key found at the first of four places, or the caller's, and the session id at the first of three |
| SendLaws.FallsBackIff | internal/wsclient/client.go:204-207 | a create is tried again exactly when it named a workspace or an agent and the error calls one of them an unexpected property, in any case |
| SendLaws.SendSucceedsIff | internal/wsclient/client.go:174-184 | a send succeeds exactly when an answer came with nothing but null at `error` |
| SessionKeys.SanitizeImage | internal/httpapi/server.go:372-380 | sanitised identifiers are exactly the strings over a-z, 0-9, dot, underscore, colon and dash without dash, colon or dot at the ends, and those are fixed, so sanitising is idempotent |
| SessionKeys.SanitizeJoinsPieces | internal/httpapi/server.go:372-380 | for any alternation of identifier pieces and foreign runs, the result is the pieces joined by one dash for each run, with dashes, colons and dots cut off both ends and nothing else |
| SessionKeys.Alternate | internal/httpapi/server.go:337 | every text is such an alternation |
| SessionKeys.BuildSessionKeyInjective | internal/httpapi/server.go:339-346 | session keys of two pairs agree exactly for the same sanitised pair or one shifted at a colon; never when the agents have no colon |
| SessionKeys.BuildSessionKeyCollision | internal/httpapi/server.go:339-346 | two pairs that do collide |
| SessionKeys.WorkspaceKeysApart | internal/httpapi/server.go:339-370 | a workspace key meets a built key exactly when the agent is `workspace` and the customer its digest |
| SessionKeys.ResolveFixedPoint | internal/httpapi/server.go:348-360 | every resolved key is trimmed and resolves to itself whatever the other fields say |
| SessionKeys.ResolvePriority | internal/httpapi/server.go:348-360 | an explicit key decides, else a complete pair of identifiers, else the workspace, else the fallback |
| SessionKeys.CallbackOkIff | internal/httpapi/server.go:182-187 | a callback address is acceptable exactly when it is empty or begins with http:// or https:// in any case |
| SessionKeys.ResolveWithoutFallback | internal/httpapi/server.go:156-162 | a send has no session key exactly when session, workspace and one of agent and customer are empty |
| SessionKeys.InboundKeyInjective | internal/httpapi/server.go:173 | scoped dedupe keys agree exactly for the same pair or one shifted at a colon; never across sessions when the dedupe keys have no colon |
| SessionKeys.InboundKeyCollision | internal/httpapi/server.go:173 | two sessions that do collide |
| SessionKeys.PrefixesApart | internal/store/store.go:77-82 | inbound and outbound keys share a column and never meet |
| Fingerprint.MaterialIdentifiesRaw | internal/app/app.go:248-262 | the undelimited joining determines its raw frame when that is a JSON text |
| Fingerprint.OutboundKeyIdentifiesFrame | internal/app/app.go:248-262 | with a collision-free digest two decoded frames share a dedupe key exactly when they are the same bytes |
| Fingerprint.BalancedTailUnique | internal/app/app.go:257-260 | a text can be cut at a bar before a balanced tail in one way only |
| Fingerprint.MaterialAmbiguous | internal/app/app.go:257-260 | without JSON at the end the joining is ambiguous |
| Fingerprint.TypedEventsHaveKeys | internal/app/app.go:248-252 | an event with a type always has a dedupe key the store does not take for blank |
| JsonText.JsonIsBalanced | internal/wsclient/client.go:578-584 | a JSON text keeps bars and backslashes inside strings and ends outside them |
| JsonText.Lockstep | internal/app/app.go:248-262 | two lexers reading the same characters, one inside a string and one outside, never both finish outside |
| JsonText.NoTailAfterBar | internal/app/app.go:248-262 | what follows a bar in a JSON text is no JSON text |
| Frames.MessagePlaces | internal/wsclient/client.go:147-154 | the fields of a message by the paths in the frame they come from, in their order: three for the event type, three for the request id, twelve for the session key |
| Frames.FinalIff | internal/app/app.go:264-281 | a frame shows the end exactly when one of two flags is true in it, its params or its payload, or the first status text of five places is one of five words in any case |
| Frames.ErrorIff | internal/wsclient/client.go:177 | a frame carries an error exactly when something other than null stands at `error` |
| Frames.SessionKeyFirstWins | internal/wsclient/client.go:602-623 | the first candidate map that names a session decides |
| Frames.ExtractedTrimmed | internal/wsclient/client.go:586-638 | every extracted field is trimmed |
| Tty.MatchIsPattern | internal/hermes/client.go:252 | the scanner matches exactly what the pattern describes |
| Tty.StripIsExact | internal/hermes/client.go:252-256 | any mixture of escape-free text and accepted control sequences is stripped to exactly its text |
| Tty.StripFixedIffQuiet | internal/hermes/client.go:256 | stripping again changes nothing exactly when no control sequence is left |
| Tty.StripNotIdempotent | internal/hermes/client.go:256 | an input where one is left |
| Tty.NoEscapeLeftIff | internal/hermes/client.go:252-256 | stripping leaves no escape character exactly when every escape character of the input begins an accepted control sequence |
| Tty.StreamNeedsOnePass | internal/hermes/client.go:252-256 | on such inputs one pass is enough |
| Tty.CleanupTTYOutput | internal/hermes/client.go:254-273 | the cleaning loop computes the text the next rows are about |
| Tty.CleanupIsJoin | internal/hermes/client.go:257-272 | the output is exactly the kept lines joined: the last trimming does nothing |
| Tty.KeptLineAppears | internal/hermes/client.go:257-271 | each kept line appears trimmed, at the place its kept predecessors leave it, and nothing else does |
| Tty.CleanLinesInOrder | internal/hermes/client.go:257-271 | the output of a prefix of the lines is the matching prefix of the output |
| Tty.MarkerNeverShows | internal/hermes/client.go:264-266 | the whole output never contains the marker and a colon, for a marker without line breaks |
| Tty.CleanupIdempotentIffQuiet | internal/hermes/client.go:254-273 | cleaning again changes nothing exactly when the output has no control sequence |
| Tty.CleanupIdempotent | internal/hermes/client.go:254-273 | and that is so whenever one pass over the input leaves none |
| Tty.CleanupIdempotentOnStreams | internal/hermes/client.go:254-273 | in particular for every input whose escape characters all begin accepted control sequences |
| Tty.OnlyLastChunkMatters | internal/hermes/client.go:76-80 | the marker test on everything read so far comes down to the chunk just read |
| Tty.ReadOutput | internal/hermes/client.go:54-86 | reading ends at the first frame that brings the marker by itself or at the first error, and returns the cleaned text up to there; in terms of the texts the frames carry, behind the opcode or without one, it is the cleaned join of the trimmed texts |
| Tty.ChunksAreShown | internal/hermes/client.go:241-250 | the outputs collected are the carried texts, trimmed, without the blank ones |
| Tty.PlainLinesCleaned | internal/hermes/client.go:254-273 | escape-free lines, ended by line feeds or carriage returns in any mixture, come out as exactly those that show: trimmed, not blank, without the marker, no call of the script |
| Tty.JoinStaysQuiet | internal/hermes/client.go:272 | no control sequence arises across a line break |
| Webhook.SendToURL | internal/webhook/client.go:40-78 | with n retries one to n + 1 POSTs; success exactly when the last one made succeeded, all earlier ones having failed; cancellation exactly when a wait with retries left was cut short; and the waits requested |
| Webhook.EndIsUnique | internal/webhook/client.go:48-76 | what POSTs and waits meet fixes how many POSTs are made |
| Webhook.EndDecides | internal/webhook/client.go:48-76 | where a delivery ends decides whether it succeeds and whether it fails |
| Webhook.BackoffTotal | internal/webhook/client.go:53 | the waits before attempt k total at most delay * k * (k - 1) / 2, and exactly that if and only if the last wait fits a 64-bit duration |
| Webhook.BackoffBounded | internal/webhook/client.go:46-53 | a whole delivery waits at most delay * n * (n + 1) / 2 |
| Webhook.BackoffWraps | internal/webhook/client.go:53 | a delay for which the third attempt's wait wraps below zero |

## Left out

- Sockets, HTTP, PostgreSQL, logging, environment and signals: replaced by inputs or by steps of either outcome, the two tables by maps with an atomic insert-if-absent, all clocks by one, and a failing statement by one that may or may not have taken effect.
- SHA-1 and SHA-256 are parameters; SHA-256 is taken as injective where a row says collision-free, the truncated SHA-1 only as lower-case hex.
- The JSON decoder is a parameter that accepts only JSON texts; number tokens are over-approximated by their characters.
- Letter case outside ASCII: only the two further letters whose lower case is ASCII are lowered; workspaces that differ in the case of other letters share a digest in the bridge and need not here.
- What the socket library does after a read deadline has passed: the handshake rows speak of what is returned for a given sequence of reads.
- Prompt shutdown when the context is cancelled: Serve's read does not watch it, and nothing is claimed.
- Mux and Pipeline are machines on values, not on the heap; the heap is in the classes, whose methods run without interruption.
- Mux.NextKeeps: the ownership and conservation parts hold until the 64-bit counter has wrapped once.
- Delivery.App.SetSessionDelivery: the row's time is the statement's, which equals the cache's because callers never pass a creation time; in the runs both are one value.
- Tty.ReadOutput: the command line echoed by the terminal can itself contain the marker, so completeness of the output is not claimed.
- Webhook.SendToURL: a retry count of 2^63 - 2, where the attempt counter would wrap after that many POSTs, ends here instead.
- Payload building, configuration, error classification, URL normalisation, token fetching, authentication fallback and the other endpoints would add only single-branch facts.
