# Symphony REST client: datafeed dispatch, token gate and retry pipeline in Dafny

This project models the core of a client SDK for the Symphony messaging service, in three parts.

- **Datafeed dispatch** (`AbstractDatafeedApi`). This part takes a batch of wire events (`V4Event`) and classifies each one through the fixed `whatToDo` table. It maps the event to its argument record and schedules one invocation per listener registered under that kind. Per listener, it keeps a "last scheduled invocation" entry, and each new invocation waits for that entry. The listener table (`listEventDelegates`) and the in-flight map (`_inflightEvents`) are fields of a class. Tasks are modelled as entries of an invocation log. Each entry records its listener, its arguments, and the log index of the invocation it waits for (`waitsFor`).
- **Token gate and transport** (`RestClient.Console/Program.cs`). `CanGoIn`/`BuildTokens` refresh the session and key-manager tokens at most once a minute. The check runs before and after the semaphore is taken. `SecurityHandler` overwrites the two token headers on every send. `RetryHandler` with its `fallBack` resends once after `BuildTokens` when the answer is 401. The console bot's `Route`/`Talk` filters and the "204" rule of `Main`'s read loop are modelled as well.
- **Mapper** (`Mapper.cs`). These functions copy fields from wire events into typed argument records. A member access through a null reference raises `NullReference`, which the model returns as `Failure`. `UserFactory.Create` and `MessageFactory.Create` are parameters (`Entities.Factories`), so every property holds for any factory.

Files: `wrappers.dfy` (Option/Result/Outcome), `v4_events.dfy` (wire types), `entities.dfy` (argument records, factories), `mapper.dfy`, `dispatch.dfy` (invocation log, chain invariant), `datafeed_api.dfy`, `token_store.dfy`, `transport.dfy`, `console_bot.dfy`.

Behaviour of the code worth knowing:

- The datafeed read in `Main` uses the certificate-only client and passes the tokens as arguments. It does not go through the retrying pipeline. A 401 on a read therefore leaves `Main` (`ConsoleBot.MainStep`). Only the bot's replies go through `RetryHandler`.
- `BuildTokens` has no force flag. A 401 that arrives within a minute of the last build makes no refresh, and the retry goes out with identical token headers (`Transport.RetryWithinAMinuteResendsSameTokens`).
- The freshness test is "strictly more than one minute since `lastBuild`".
- An exception raised by a mapper leaves `ProcessMessageList`, and the rest of the batch is not processed (`DatafeedApi.FaultAbortsBatch`).
- Unsubscribing drops the listener's in-flight entry. If the listener is added again, its next invocation starts a new chain and does not wait for invocations scheduled before the removal (`Dispatch.NextWaitsForLatest`).
- USERLEFTROOM and ROOMUPDATED events are never dispatched, although `Mapper` has mappers for them.

## Model

| member | source | states |
|---|---|---|
| `Mapper.ToMessage` | src/SymphonyOSS.RestApiClient/Api/AgentApi/Mapper.cs:10-13 | succeeds exactly when `Payload` and `Payload.MessageSent` are non-null; the message is the factory image of `Payload.MessageSent.Message` |
| `Mapper.ToConnectionRequested` | src/SymphonyOSS.RestApiClient/Api/AgentApi/Mapper.cs:15-21 | succeeds exactly when `Initiator`, `Payload` and `Payload.ConnectionRequested` are non-null; from-user is the initiator's user, to-user is `ConnectionRequested.ToUser` |
| `Mapper.ToConnectionAccepted` | src/SymphonyOSS.RestApiClient/Api/AgentApi/Mapper.cs:23-29 | same null rule; roles reversed: to-user is the initiator's user, from-user is `ConnectionAccepted.FromUser` |
| `Mapper.ConnectionRolesReversed` | src/SymphonyOSS.RestApiClient/Api/AgentApi/Mapper.cs:15-29 | a request and an acceptance between the same two users yield the same from/to pair |
| `Mapper.ToUserJoinedRoom` | src/SymphonyOSS.RestApiClient/Api/AgentApi/Mapper.cs:31-38 | the initiator is null exactly when `Initiator` or `Initiator.User` is null, else the factory image; the joined user is the factory image of `AffectedUser`; the room copies StreamId, RoomName and External; fails exactly when `Payload`, `UserJoinedRoom` or `Stream` is null |
| `Mapper.ToUserLeftRoom` | src/SymphonyOSS.RestApiClient/Api/AgentApi/Mapper.cs:39-46 | the same rules for the left-room payload |
| `Mapper.ToRoomProperties` | src/SymphonyOSS.RestApiClient/Api/AgentApi/Mapper.cs:57-72 | the nine scalar fields are copied unchanged and the creator is the factory image; a null argument raises |
| `Mapper.ToRoomUpdated` | src/SymphonyOSS.RestApiClient/Api/AgentApi/Mapper.cs:48-55 | initiator null rule as above; the properties are `ToRoomProperties(NewRoomProperties)`; the room copies the stream's three fields |
| `Dispatch.Schedule` | src/SymphonyOSS.RestApiClient/Api/AgentApi/AbstractDatafeedApi.cs:150-159 | one step of the loop at line 182: appends one invocation for the listener with the event's arguments, waiting for its in-flight entry if any, and makes it the listener's entry; the earlier log and the other listeners' entries stay |
| `Dispatch.ScheduleAll` | src/SymphonyOSS.RestApiClient/Api/AgentApi/AbstractDatafeedApi.cs:173-184 | scheduling a list appends exactly one invocation per list entry and keeps the earlier log |
| `Dispatch.ScheduleAllLog` | src/SymphonyOSS.RestApiClient/Api/AgentApi/AbstractDatafeedApi.cs:145-184 | the k-th new invocation is for the k-th list entry, carries the event's arguments, and waits for the previous invocation of that listener in the list, or else for its in-flight entry from before, or for nothing |
| `Dispatch.ScheduleAllInflight` | src/SymphonyOSS.RestApiClient/Api/AgentApi/AbstractDatafeedApi.cs:180-183 | afterwards a listener in the list has its last new invocation in flight; every other listener keeps its entry |
| `Dispatch.ScheduleKeepsChained` | src/SymphonyOSS.RestApiClient/Api/AgentApi/AbstractDatafeedApi.cs:150-159 | recording a new invocation whose predecessor is the current entry keeps the chain invariant |
| `Dispatch.ScheduleAllKeepsChained` | src/SymphonyOSS.RestApiClient/Api/AgentApi/AbstractDatafeedApi.cs:173-184 | a whole invocation list keeps the chain invariant: an invocation that waits at all waits for the immediately preceding invocation of the same listener, and each in-flight entry is that listener's latest |
| `Dispatch.SuccessorUnique` | src/SymphonyOSS.RestApiClient/Api/AgentApi/AbstractDatafeedApi.cs:155-160 | no invocation is waited on by two others, so, as long as the listener is not removed in between, its invocations form one chain in submission order |
| `Dispatch.NextWaitsForLatest` | src/SymphonyOSS.RestApiClient/Api/AgentApi/AbstractDatafeedApi.cs:150-159 | the next invocation of a listener waits for its most recent invocation exactly when the listener has an in-flight entry; after a removal it waits for nothing |
| `Dispatch.RunOf` | src/SymphonyOSS.RestApiClient/Api/AgentApi/AbstractDatafeedApi.cs:155-170 | the task body: a task faults exactly when its listener was never called (its predecessor faulted, and `Wait()` is outside the `try`); a called listener completes, and a warning is logged only with a logger and only when the listener raised |
| `Dispatch.EveryInvocationRuns` | src/SymphonyOSS.RestApiClient/Api/AgentApi/AbstractDatafeedApi.cs:155-170 | because listener exceptions are caught, no predecessor faults, and every scheduled invocation calls its listener and completes; with a logger configured a warning is logged exactly when the listener raised, and without one (`Log?.`) nothing is logged |
| `DatafeedApi.RemoveLast` | src/SymphonyOSS.RestApiClient/Api/AgentApi/AbstractDatafeedApi.cs:49-54 | removing a listener takes its last occurrence out of the kind's list and keeps the other entries in order, or leaves the list unchanged if it is absent |
| `DatafeedApi.MapFor` | src/SymphonyOSS.RestApiClient/Api/AgentApi/AbstractDatafeedApi.cs:127-130 | each `whatToDo` entry maps with its own mapper: a successful result is the argument record of that entry's event, and it fails exactly when that `Mapper` function fails |
| `DatafeedApi.FireStep` | src/SymphonyOSS.RestApiClient/Api/AgentApi/AbstractDatafeedApi.cs:186-191 | `Fire`: a mapper fault is returned and schedules nothing; otherwise one invocation per listener of the key is appended and the earlier log is kept |
| `DatafeedApi.ProcessEvents` | src/SymphonyOSS.RestApiClient/Api/AgentApi/AbstractDatafeedApi.cs:230-240 | the batch loop only appends to the invocation log and never rewrites a scheduled invocation |
| `DatafeedApi.WhatToDo` | src/SymphonyOSS.RestApiClient/Api/AgentApi/AbstractDatafeedApi.cs:123-131 | only MESSAGESENT, CONNECTIONREQUESTED, CONNECTIONACCEPTED and USERJOINEDROOM have an action |
| `DatafeedApi.EachKindFiresToItsOwnListeners` | src/SymphonyOSS.RestApiClient/Api/AgentApi/AbstractDatafeedApi.cs:127-130 | the table entry by entry: MESSAGESENT fires `OnMessage`'s list with `ToMessage`, CONNECTIONREQUESTED `OnConnectionRequested`'s with `ToConnectionRequested`, CONNECTIONACCEPTED `OnConnectionAccepted`'s with `ToConnectionAccepted`, USERJOINEDROOM `OnUserJoinedRoom`'s with `ToUserJoinedRoomEventArgs`; a mapper that raises schedules nothing |
| `DatafeedApi.SkippedEventsChangeNothing` | src/SymphonyOSS.RestApiClient/Api/AgentApi/AbstractDatafeedApi.cs:230-240 | null events, untyped events and kinds without an action are skipped and processing goes on: a batch does what its acting events alone do |
| `DatafeedApi.IgnoredKindsScheduleNothing` | src/SymphonyOSS.RestApiClient/Api/AgentApi/AbstractDatafeedApi.cs:238-239 | a batch without acting events (user-left and room-updated included) schedules nothing and raises nothing |
| `DatafeedApi.FaultAbortsBatch` | src/SymphonyOSS.RestApiClient/Api/AgentApi/AbstractDatafeedApi.cs:186-191 | once a mapper raises, the events after it are not processed |
| `DatafeedApi.ProcessKeepsChained` | src/SymphonyOSS.RestApiClient/Api/AgentApi/AbstractDatafeedApi.cs:223-241 | processing any batch keeps the chain invariant |
| `DatafeedApi.OneEventSchedulesItsListeners` | src/SymphonyOSS.RestApiClient/Api/AgentApi/AbstractDatafeedApi.cs:127-130 | an acting event schedules exactly one invocation per entry of its kind's list, in list order, with its mapped arguments, and nothing else |
| `DatafeedApi.AbstractDatafeedApi.constructor` | src/SymphonyOSS.RestApiClient/Api/AgentApi/AbstractDatafeedApi.cs:119-133 | empty tables, not stopped, invariant established |
| `DatafeedApi.AbstractDatafeedApi.Subscribe` | src/SymphonyOSS.RestApiClient/Api/AgentApi/AbstractDatafeedApi.cs:43-97 | the add accessors append the listener to the list of the event its delegate type belongs to and change nothing else; every listener stays filed under its own event |
| `DatafeedApi.AbstractDatafeedApi.Unsubscribe` | src/SymphonyOSS.RestApiClient/Api/AgentApi/AbstractDatafeedApi.cs:43-97 | the remove accessors drop the last occurrence from the list of the listener's event and delete exactly that listener's in-flight entry, leaving the entries of other events' listeners; scheduled invocations are kept |
| `DatafeedApi.AbstractDatafeedApi.Stop` | src/SymphonyOSS.RestApiClient/Api/AgentApi/AbstractDatafeedApi.cs:140-143 | `ShouldStop` is true afterwards, whatever it was |
| `DatafeedApi.AbstractDatafeedApi.CreateInvocationTask` | src/SymphonyOSS.RestApiClient/Api/AgentApi/AbstractDatafeedApi.cs:145-171 | starts one task whose predecessor is the listener's current in-flight entry, or none |
| `DatafeedApi.AbstractDatafeedApi.InvokeEventHandlers` | src/SymphonyOSS.RestApiClient/Api/AgentApi/AbstractDatafeedApi.cs:173-184 | the loop's effect equals `ScheduleAll` on the invocation list and keeps the invariant |
| `DatafeedApi.AbstractDatafeedApi.ToMessage` | src/SymphonyOSS.RestApiClient/Api/AgentApi/AbstractDatafeedApi.cs:193-196 | computes the same result as `Mapper.ToMessage` |
| `DatafeedApi.AbstractDatafeedApi.ToConnectionRequested` | src/SymphonyOSS.RestApiClient/Api/AgentApi/AbstractDatafeedApi.cs:198-204 | computes the same result as `Mapper.ToConnectionRequested` |
| `DatafeedApi.AbstractDatafeedApi.ToConnectionAccepted` | src/SymphonyOSS.RestApiClient/Api/AgentApi/AbstractDatafeedApi.cs:206-212 | computes the same result as `Mapper.ToConnectionAccepted` |
| `DatafeedApi.AbstractDatafeedApi.ToUserJoinedRoomEventArgs` | src/SymphonyOSS.RestApiClient/Api/AgentApi/AbstractDatafeedApi.cs:214-221 | computes the same result as `Mapper.ToUserJoinedRoom` |
| `DatafeedApi.AbstractDatafeedApi.ProtectedMapFor` | src/SymphonyOSS.RestApiClient/Api/AgentApi/AbstractDatafeedApi.cs:127-130 | the mapper each `whatToDo` entry uses agrees with the `Mapper` one for its kind |
| `DatafeedApi.AbstractDatafeedApi.Fire` | src/SymphonyOSS.RestApiClient/Api/AgentApi/AbstractDatafeedApi.cs:186-191 | maps first; a mapper fault schedules nothing and is returned; otherwise schedules the kind's list |
| `DatafeedApi.AbstractDatafeedApi.ProcessMessageList` | src/SymphonyOSS.RestApiClient/Api/AgentApi/AbstractDatafeedApi.cs:223-241 | a null batch changes nothing and raises nothing; otherwise the tables end as `ProcessBatch` says, and the chain invariant holds |
| `TokenGate.GateWindow` | RestClient.Console/Program.cs:52-57 | `CanGoIn`: open before the first build; shut for the whole minute after a build, the boundary included; once open, it stays open until the next build |
| `TokenGate.Build` | RestClient.Console/Program.cs:52-82 | endpoint calls happen only if `CanGoIn` holds on entry and again after locking; otherwise nothing changes; session failure changes nothing; key-manager failure replaces only the session token; success replaces both and sets `lastBuild` to the end time; at most two calls |
| `TokenGate.TwoBuildsWithinAMinute` | RestClient.Console/Program.cs:52-69 | two successful calls, the second starting within a minute of the end of the first, make at most one pair of endpoint calls |
| `TokenGate.TokenStore.constructor` | RestClient.Console/Program.cs:45-50 | null tokens, `lastBuild` at its default, semaphore free |
| `TokenGate.TokenStore.BuildTokens` | RestClient.Console/Program.cs:59-82 | the new fields equal `Build` of the old ones, and the semaphore is free on every exit |
| `Transport.AddValue` | RestClient.Console/Program.cs:203 | `Headers.Add`: appends the value to the entry of the name, in whatever case it is written, creating it if absent; other headers stay |
| `Transport.RemoveThenAdd` | RestClient.Console/Program.cs:200-203 | `Remove` followed by `Add` leaves exactly the new value under the name |
| `Transport.Inject` | RestClient.Console/Program.cs:198-206 | the header loop keeps every header name already present, and every header it creates holds exactly one value |
| `Transport.InjectAt` | RestClient.Console/Program.cs:198-206 | after the header loop, each provided name (in any case) carries exactly one value, the last one provided; other headers are untouched |
| `Transport.SecurityHeaders` | RestClient.Console/Program.cs:159-163 | `keyManagerToken` and `sessionToken`, compared without regard to case, carry exactly the current token values, and every other header is as before |
| `Transport.StaleCaseVariantReplaced` | RestClient.Console/Program.cs:198-204 | a stale token header written as `SessionToken` is removed too, and only the current session token is left under that name |
| `Transport.SecurityHeadersIdempotent` | RestClient.Console/Program.cs:198-204 | writing the same tokens again changes nothing |
| `Transport.Retry` | RestClient.Console/Program.cs:172-228 | the inner handler is called once or twice; twice exactly on a 401 followed by a `BuildTokens` that returns; a non-401 answer is returned unchanged with no refresh; after a resend its result is returned, 401 included; a failing refresh is raised; the second send carries the first request's headers rewritten with the tokens after the refresh |
| `Transport.RetryWithinAMinuteResendsSameTokens` | RestClient.Console/Program.cs:175-178 | a 401 within a minute of the last build calls no endpoint, and the retry carries the same headers as the first attempt |
| `Transport.RetryAfterRefreshCarriesNewTokens` | RestClient.Console/Program.cs:175-178 | after a completed refresh the retry carries the two new tokens |
| `Transport.CertHandler.SendAsync` | RestClient.Console/Program.cs:146-153 | the network boundary: records the request as sent and returns the supplied answer |
| `Transport.SecurityHandler.constructor` | RestClient.Console/Program.cs:191-194 | keeps the token source and the inner handler |
| `Transport.SecurityHandler.SendAsync` | RestClient.Console/Program.cs:196-209 | the header loop leaves the headers as `Inject` of the current providers, names matched without regard to case, then the request is sent once |
| `Transport.RetryHandler.constructor` | RestClient.Console/Program.cs:216-219 | keeps the inner handler |
| `Transport.RetryHandler.SendAsync` | RestClient.Console/Program.cs:221-228 | tokens, result and requests sent are those of `Retry`; the semaphore ends free |
| `Transport.RetryHandler.FallBack` | RestClient.Console/Program.cs:172-182 | a non-401 response is returned as it is, with nothing changed; on 401, `BuildTokens` runs once, and if it returns, the request is sent once more and that answer is returned |
| `ConsoleBot.Talk` | RestClient.Console/Program.cs:130-144 | a null message, `Message` or `User` raises; with a readable sender, nothing happens exactly when the sender id is 346621040656630; any other sender with a text and a stream gets a reply quoting the text in that stream; a null text or a null stream raises instead |
| `ConsoleBot.Route` | RestClient.Console/Program.cs:116-128 | acts only on non-null events typed MESSAGESENT; a null payload then raises, otherwise it does what `Talk` does with the payload's message |
| `ConsoleBot.Play` | RestClient.Console/Program.cs:107-114 | one routing per event, by position (the routings run concurrently), and failures of routings are not observed; a null batch raises |
| `ConsoleBot.MainStep` | RestClient.Console/Program.cs:91-104 | a "204" exception is swallowed and polling continues with nothing dispatched; every other exception, a 401 included, and a null batch end the loop |
| `ConsoleBot.Polls` | RestClient.Console/Program.cs:91-104 | the number of completed iterations: every read before it continues the loop, and the read at that position, if any, ends it |
| `ConsoleBot.NoContentKeepsPolling` | RestClient.Console/Program.cs:91-104 | reads that return a non-null batch or a "204" never stop the loop, whatever listeners or replies do |

## Left out

- Real concurrency. `Task.Run`, `pendingTask.Wait()`, `Task.WhenAll`, async/await and `volatile` are not modelled as threads. Invocations are log entries with predecessor links, and the semaphore is a boolean in a model that runs one operation at a time. Interleavings, such as two `BuildTokens` calls racing on the double check, are not modelled.
- Network and TLS. The generated clients, `HttpClient`, certificates and `File.ReadAllLines` are left out. The authentication endpoints' answers are `BuildInputs` fields. Each inner send's answer is an `InnerResponse` parameter. `V4CreateAsync` is not modelled, and `V4MessageCreateAsync` is the `Reply` action.
- The clock. Each `DateTimeOffset.Now` reading is an integer tick count supplied as a parameter.
- Logging and console output, including the printing of token values. These are side effects only. Whether a warning is logged for a raising listener is modelled (`Dispatch.RunOf`); what is written is not.
- XML parsing in `Talk`. `XDocument.Load` is a foreign library. A reply carries the incoming text instead of the `messageML` reply body, and malformed XML, which would raise, is not modelled.
- The infinite `while (true)` of `Main`. It appears only as `Polls` over a finite sequence of reads. Creating the datafeed at start-up is not modelled.
- `EventHandlerList` and delegate internals. A listener is an opaque identity together with the event its delegate type is for (`Dispatch.Handler`), so listeners of different events never share an in-flight entry. Adding or removing a multicast delegate, and the null-handler case, are not modelled; removing a null handler would make `TryRemove` raise.
- `UserFactory.Create` and `MessageFactory.Create` are parameters. The model assumes they return an object and do not raise.
- The `Listening` property. Nothing in the modelled code reads or sets it, so the class has no such field.
- A null `Token1` from the authentication endpoints is not modelled. The token-header value for a token that was never built is modelled as the empty string (`Transport.HeaderValue`). The framework's handling of a null header value is not part of this model.
- Cancellation tokens.
- Header names are folded to lower case over ASCII only, since HTTP header names are ASCII tokens; non-ASCII case folding is not modelled.
- The generated `V4EventType` enumeration. Members other than the six named ones are collapsed into `OtherKind`.
- `test/SymphonyOSS.RestApiClient.Tests/ConnectionApiTest.cs` checks that `ConnectionApi` forwards calls to its executor. `ConnectionApi` is not part of this model.
