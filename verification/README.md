# A model of the Data 360 DuckDB extension

This project models, in Dafny 4.11, the parts of the Data 360 DuckDB extension that keep state across
calls or read input they cannot trust, and proves what those parts are for:

- the **query session and cursor** (`src/query_api.cpp`): submit, poll, metadata, numbered chunks or a chain
  of links, reconciliation or clean-up (`QueryTrace`, `QueryWorld`, `QuerySession`, `QuerySteps`, `QueryRuns`,
  `ChunkPath`), and the servers against which it succeeds (`QueryDirect`, `QueryScript`, `QueryServed`);
- the **auth session registry** (`src/auth_session_registry.cpp`): lazily expired sessions, eviction, capacity
  limits, single-use material and a credential store (`AuthRegistry`, `AuthRegistryImpl`, `AuthRegistryProofs`,
  `AuthRegistryRuns`, `AuthExpiry`, `CredentialStore`, `ConstantTime`, `IdOrder`);
- the **completion and secret-replacement protocol** (`src/auth_functions.cpp`, `src/session_credentials.cpp`)
  run by any number of threads (`Completion`, `CompletionProofs`, `CompletionEnds`,
  `CompletionOrphans`);
- the two **re-batching scans** on top of the cursor (`src/arrow_ipc_chunk_reader.cpp`,
  `src/data360_extension.cpp`, `src/scan_runtime.cpp`: `ArrowReader`, `ArrowScan`, `ArrowRuns`, `ScanBuffer`);
- the **encoders, parsers and validators** (`src/oauth_pkce.cpp`, `src/loopback_listener.cpp`,
  `src/salesforce_oauth_provider.cpp`: `Base64Url`, `PercentCoding`, `QueryString`, `AuthorizationUrl`,
  `CallbackRequest`, `Origins`, `TokenExpiry`, `Text`).

`dafny verify dfyconfig.toml` checks everything.

## How it is modelled

Objects that update their fields are classes whose methods are proved against a specification; protocols are
transition systems whose every step is one locked region of the program. `Session` runs against a `World`, an
arbitrary tape of replies, clock movements and interrupts, and keeps a ghost trace of the requests it sent, so
that a statement about every session is a statement about every server, clock and user. It is part of the session's
invariant that the trace is the world's: each request was called for by the answers before it, got the world's answer
and was charged exactly, and the clock and the interrupts are the world's too (`QueryWorld.Recorded`,
`QueryWorld.TimedIn`). Errors are proved true of that record: `Trouble`, `Unready`, `Undelivered` and `Unoffered` of a
session say, error by error, what must have happened for it. The registry class performs, call by call, the steps of a
pure machine (`AuthRegistry.Step`), and any sequence of calls on it is a run of that machine, about which the theorems
speak.
Exceptions are `Result` or `Option` values. Counters that are `uint64_t` in the program have a type in which Dafny
checks that no operation leaves the 64-bit range.

## What the model found

- Two interrupt checks in the failure path (`src/auth_functions.cpp:279-285`): whatever else happens in between, a
  failed completion whose first check sees no interrupt and whose second sees one leaves the session COMPLETING without
  an owner, and no other failed completion does (`CompletionOrphans.FailureIsRecordedExactly`). Such a session stays so
  for ever (`CompletionOrphans.OrphanForever`): once there are four, every later `Create` throws, whatever the clock
  does (`CompletionOrphans.FourOrphansBlock`), and there is a run with four (`CompletionOrphans.BlockedIsReachable`).
- `Session::Cancel` does nothing while no query id is known (`src/query_api.cpp:147`), so a legacy cursor reports the
  end of data after a failed call exactly when the call failed on the kept first response, no id was known and the rows
  so far are as many as announced, if a number was (`QueryRuns.BufferedFailure`). `QueryRuns.LosesTheResult` shows
  whole queries lost in this way, and `QueryRuns.LosesAgainst` one server that makes it happen.
- `Cancel` and `Fail` do not sweep: on an elapsed session they record another outcome than a registry that expires
  sessions on time (`AuthExpiry.LateCancelDiffers`, `AuthExpiry.AbortAgreesExactly`).
- `src/query_api.cpp:316` is dead code: the response that named the path already taught the session its id. Likewise
  the chunk-count and incomplete-chain checks of `Finish` cannot fire where it is called
  (`QuerySession.Session.FollowLink`, `QuerySession.Session.Conclude`).
- When the deadline passes between the two clock reads, the subtraction at `src/query_api.cpp:172` wraps: at the
  deadline the timeout is zero, and after it the request goes out with the full request timeout
  (`QueryTrace.TimeoutInRange`). `QuerySession.Session.Send` says exactly when this happens, by the delays of the two
  reads, and `QueryRuns.LateRequest` is a run in which it does.

## Model

| member | source | states |
|---|---|---|
| `CompletionProofs.CatalogCoherent` | src/session_credentials.cpp:32-75 | in every interleaving of any number of completions, registry calls and clock advances, with any commit failing: a catalog entry names a stored credential unless its time is up, no two names share one, and every stored credential is named by the catalog or answered for by exactly one thread |
| `CompletionProofs.QuiescentCatalog` | src/auth_functions.cpp:255-289 | with no completion in flight nothing has leaked: no stripe is locked, every stored credential is named by the catalog, and a named one resolves if and only if it has not expired |
| `CompletionProofs.InstalledIsNeverUndone` | src/auth_functions.cpp:269-277 | after a successful install FinishAuthorized cannot be refused, and a credential about to be deleted by the failure path is never in the catalog |
| `CompletionEnds.NeverStuck` | src/session_credentials.cpp:32-40 | in every reachable state with a completion in flight, some completion waits for nothing and can take its next step whatever the provider, the registry and the catalog answer: the stripes cannot deadlock |
| `CompletionEnds.EnabledExactly` | src/session_credentials.cpp:32-40 | a completion can take exactly its next step, and cannot only while another one holds the stripe of its secret name |
| `CompletionEnds.EveryCompletionEnds` | src/auth_functions.cpp:255-289 | on every schedule and with any answers a completion takes at most eleven steps of its own |
| `CompletionEnds.ThreadsAlone` | src/auth_functions.cpp:255-289 | from every reachable state a schedule of the completions alone has at most eleven steps for each of them, and can be continued until none is in flight |
| `CompletionOrphans.FailureIsRecordedExactly` | src/auth_functions.cpp:273-286 | whatever the other threads, calls and the clock do before and between the two checks, a failed completion ends with its session COMPLETING and ownerless if and only if the first check saw no interrupt and the second saw one; otherwise the session is terminal or already evicted |
| `CompletionOrphans.OrphanForever` | src/auth_session_registry.cpp:140-148 | a COMPLETING session that no thread owns is COMPLETING and without an owning thread after any run of any calls, threads and clock advances |
| `CompletionOrphans.FourOrphansBlock` | src/auth_session_registry.cpp:175-185 | after a run that left four such sessions, every later Create throws, at any time and after any further run, and with a well-formed request because the session limit is reached |
| `CompletionOrphans.BlockedIsReachable` | src/auth_functions.cpp:279-285 | there is a run that leaves four such sessions |
| `CompletionProofs.ReachKeeps` | src/auth_session_registry.cpp:305-322 | every reachable system state satisfies the invariant: holders of credentials, guarded stripes, exclusive COMPLETING ownership |
| `CompletionProofs.CommitHeld` | src/session_credentials.cpp:41-59 | a commit hands the new credential to the name and the displaced one to the thread, and loses none |
| `CompletionProofs.UndoHeld` | src/session_credentials.cpp:60-69 | a failed commit removes only the new credential, which nobody else can name |
| `CompletionProofs.CommittedKeeps` | src/session_credentials.cpp:71-75 | retiring the displaced credential after the commit keeps the system invariant |
| `AuthRegistryProofs.RunKeepsInv` | src/auth_session_registry.cpp:150-448 | after every run of calls: at most 4 active sessions, 32 sessions and 16 credentials, disjoint session and credential ids, and per session exactly the material and the fault its status implies |
| `AuthRegistryProofs.StatusMovesForward` | src/auth_session_registry.cpp:126-148 | whatever the call, a session stays, moves forward, or, being terminal, is evicted; a terminal one keeps its status and fault, and the secret name, login origin, client id and both expiries never change |
| `AuthRegistryProofs.MaterialAtMostOnce` | src/auth_session_registry.cpp:305-322 | at every point of every run, completion material was handed out at most once since the id was last given to a new session, not at all while that session can still receive its callback or be completed, and never for an id not given out |
| `AuthRegistryProofs.OwnersConserved` | src/auth_session_registry.cpp:160-174 | over any run and for every callback owner: as often as it was taken under an id, it was stopped under that id, or dropped by an eviction without StopAndJoin, or is still held |
| `AuthRegistryProofs.OwnerConserved` | src/auth_session_registry.cpp:228-303 | the same for one call and every owner, and neither ReceiveCallback nor ReceiveDenied ever stops one |
| `AuthRegistryProofs.EvictFrees` | src/auth_session_registry.cpp:167-174 | eviction removes only terminal sessions, and leaves either room or nothing evictable |
| `AuthRegistryProofs.CompletingIsExclusive` | src/auth_session_registry.cpp:352-396 | no call but its own Finish changes a session that is being completed, except that StopCallback may take its callback owner |
| `AuthRegistryProofs.FinishCannotBeRefused` | src/auth_session_registry.cpp:305-351 | after BeginCompletion succeeded, any run of other calls and any clock leave the session to be finished, and either Finish succeeds |
| `AuthExpiry.LazyRefinesEager` | src/auth_session_registry.cpp:140-148 | with a nondecreasing clock and no abort of an elapsed session, every call of every run is answered as by a registry that expires all elapsed sessions at each tick |
| `AuthExpiry.AbortAgreesExactly` | src/auth_session_registry.cpp:352-383 | Cancel and Fail stay in step with that registry if and only if their target has not elapsed |
| `AuthExpiry.LateCancelDiffers` | src/auth_session_registry.cpp:366-383 | a concrete run in which a late Cancel reads as CANCELLED while the reference reports EXPIRED |
| `CredentialStore.StoreRefinesLedger` | src/auth_session_registry.cpp:398-448 | with a nondecreasing clock every ResolveCredential is answered as a never-purged map filtered by expiry answers it |
| `CredentialStore.StoreRefusesExactlyWhenFull` | src/auth_session_registry.cpp:403-431 | past its argument check StoreCredential refuses exactly when sixteen unexpired credentials are stored or sixteen drawn ids are all in use |
| `AuthRegistryRuns.PerformAll` | src/auth_session_registry.cpp:150-448 | any sequence of calls on the object leaves it in the state of the run of the machine, with its replies and stopped owners, so that every theorem about runs is one about the object |
| `AuthRegistryImpl.AuthSessionRegistry.Create` | src/auth_session_registry.cpp:150-212 | one step of the registry machine: sweep, evict, count, draw an id, admit or refuse; with the owners it stops |
| `AuthRegistryImpl.AuthSessionRegistry.SweepAll` | src/auth_session_registry.cpp:160-166 | the sweep loop expires exactly the elapsed sessions not being completed and collects exactly their owners |
| `AuthRegistryImpl.AuthSessionRegistry.EvictTerminal` | src/auth_session_registry.cpp:167-174 | the eviction loop removes the least terminal ids until there is room or none is left |
| `AuthRegistryImpl.AuthSessionRegistry.FirstTerminal` | src/auth_session_registry.cpp:168-172 | finds the least id, in byte order, of a terminal session, if there is one |
| `AuthRegistryImpl.AuthSessionRegistry.CountActive` | src/auth_session_registry.cpp:175-180 | counts the sessions that are not terminal |
| `AuthRegistryImpl.AuthSessionRegistry.DrawId` | src/auth_session_registry.cpp:186-193 | the first of sixteen drawn ids in use neither as a session nor as a credential, or none |
| `AuthRegistryImpl.AuthSessionRegistry.TerminalLocked` | src/auth_session_registry.cpp:126-139 | ends a session once, wiping all its material, and gives up the owner only when asked |
| `AuthRegistryImpl.AuthSessionRegistry.ExpireLocked` | src/auth_session_registry.cpp:140-148 | ends an elapsed session unless it is being completed |
| `AuthRegistryImpl.AuthSessionRegistry.TakeSnapshot` | src/auth_session_registry.cpp:228-244 | one machine step: expires its session first and reaps the owner of a terminal one |
| `AuthRegistryImpl.AuthSessionRegistry.ReceiveCallback` | src/auth_session_registry.cpp:250-283 | one machine step: a pending session with the right state takes the code, a wrong state fails it, owners are kept |
| `AuthRegistryImpl.AuthSessionRegistry.ReceiveDenied` | src/auth_session_registry.cpp:285-303 | one machine step: ends a pending session as denied or mismatched, owners are kept |
| `AuthRegistryImpl.AuthSessionRegistry.BeginCompletion` | src/auth_session_registry.cpp:305-322 | one machine step: hands out the material of a session that received its callback, once |
| `AuthRegistryImpl.AuthSessionRegistry.FinishAuthorized` | src/auth_session_registry.cpp:324-337 | one machine step: only a session being completed becomes AUTHORIZED |
| `AuthRegistryImpl.AuthSessionRegistry.FinishFailed` | src/auth_session_registry.cpp:338-351 | one machine step: only a session being completed becomes FAILED with the fault |
| `AuthRegistryImpl.AuthSessionRegistry.Fail` | src/auth_session_registry.cpp:352-365 | one machine step: fails a session that is neither terminal nor being completed, without sweeping |
| `AuthRegistryImpl.AuthSessionRegistry.Cancel` | src/auth_session_registry.cpp:366-383 | one machine step: likewise for cancelling |
| `AuthRegistryImpl.AuthSessionRegistry.StopCallback` | src/auth_session_registry.cpp:384-396 | one machine step: takes the owner of a session, if any |
| `AuthRegistryImpl.AuthSessionRegistry.PurgeCredentials` | src/auth_session_registry.cpp:405-411 | the erasing loop keeps exactly the unexpired credentials |
| `AuthRegistryImpl.AuthSessionRegistry.StoreCredential` | src/auth_session_registry.cpp:398-432 | one machine step: purge, capacity, fresh id, insert |
| `AuthRegistryImpl.AuthSessionRegistry.ResolveCredential` | src/auth_session_registry.cpp:433-444 | one machine step: an expired credential is erased and refused |
| `AuthRegistryImpl.AuthSessionRegistry.RemoveCredential` | src/auth_session_registry.cpp:445-448 | one machine step: erases the id |
| `ConstantTime.ConstantTimeEquals` | src/oauth_pkce.cpp:199-208 | accumulating differences over the longer length decides equality |
| `QueryRuns.WholeLife` | src/query_api.cpp:144-161 | construction, preparation, any calls, destruction: one DELETE, the last request, to the learned id, if and only if an id was learned and the session was not reconciled; every request names that id, which an answer gave, is capped and timed by what is left, and was called for by the answers before it (submitted once, polled only while running, chunks and links only as announced); no row, cell, byte or chunk limit is ever exceeded; no link is followed twice |
| `QueryRuns.Execute` | src/query_api.cpp:504-512 | on success the chunks are the server's answers to chunks 0..n-1, or along the chain of links, in order and complete, every row as wide as the metadata, counts as announced; every error is true of the arguments, the answers, the clock or the user, and deletes the query if its id is known; against a server that completes the query, at once or after any number of polls, describes it and brings its numbered chunks, in time and within the limits, it returns exactly these chunks; a query whose first answer announces the whole result returns that answer if and only if its rows are as announced and within the limits |
| `QueryRuns.Deliver` | src/query_api.cpp:509-510 | the loop of Execute from any prepared session: if the next answers bring all announced chunks it returns exactly these, and every failure is true |
| `QueryScript.ThereIsAServer` | src/query_api.cpp:443-487 | there are servers of the first kind, for every number of polls there is time for |
| `QueryRuns.NumberedFailureIsFinal` | src/query_api.cpp:330-401 | in numbered mode a failed fetch or report sends the DELETE and makes every later Next call throw, whatever is called |
| `QueryRuns.BufferedFailure` | src/query_api.cpp:146-148 | after any failed call on an open legacy cursor the next call reports the end if and only if the call failed on the kept first response, no id was known, and the rows so far are as many as announced, if a number was |
| `QueryRuns.LosesTheResult` | src/query_api.cpp:308-333 | a query whose one answer has no id, no row count and a row of the wrong width is prepared, fails once, and then reports the end |
| `QueryRuns.LosesAgainst` | src/query_api.cpp:308-333 | the same against one concrete server |
| `QueryDirect.OneRequest` | src/query_api.cpp:443-460 | an answer that announces the whole result calls for no further request |
| `QuerySession.Session.constructor` | src/query_api.cpp:426-441 | a new session satisfies the invariant with nothing sent |
| `QuerySession.Session.Cancel` | src/query_api.cpp:146-161 | deletes once, if the id is known and the session is neither terminal nor reconciled; otherwise sends nothing and does not become terminal |
| `QuerySession.Session.CheckActive` | src/query_api.cpp:163-167 | passes exactly when not interrupted and before the deadline, an interrupt being reported first |
| `QuerySession.Session.Send` | src/query_api.cpp:169-189 | sends one request, called for by the answers so far, exactly if no interrupt is seen and the first clock read is before the deadline, and otherwise none; it is capped by min(64 MiB, bytes left), timed by the time left at the second read, and its answer is charged exactly; every error is true; no addition or subtraction wraps except the timeout after the deadline |
| `QueryTrace.TimeoutInRange` | src/query_api.cpp:171-172 | before the deadline the timeout is min(request timeout, time left) and at least 1, at the deadline it is 0, and after it the subtraction modulo 2^64 makes it the full request timeout, or what the wrapped difference leaves of it when the deadline was missed by nearly 2^64 |
| `QueryRuns.LateRequest` | src/query_api.cpp:169-172 | a clock that stalls between the two reads makes the submission go out after the deadline, with the full request timeout |
| `QuerySession.Session.Decode` | src/query_api.cpp:191-200 | returns what the codec returns, and fails exactly when it fails |
| `QuerySession.Session.RememberQueryId` | src/query_api.cpp:202-216 | exactly when a response is accepted, that a learned id is one the response names, and that an id once learned never changes |
| `QuerySession.Session.CountCells` | src/query_api.cpp:230-236 | the row loop passes exactly when every row has the metadata width and all cells fit, and then has counted them all |
| `QuerySession.Session.Accept` | src/query_api.cpp:218-242 | accepts exactly the responses that are complete, keep the schema and fit every budget, and charges rows and chunk exactly |
| `QuerySession.Session.Finish` | src/query_api.cpp:244-254 | reconciles exactly when chunks, rows and chain are complete, and says which is not |
| `QuerySession.Session.Conclude` | src/query_api.cpp:302-312 | where it is called, Finish can fail only on the row count |
| `QuerySession.Session.FetchNumbered` | src/query_api.cpp:301-307 | requests the next chunk in order, at most once, and returns its decoded answer or a true error |
| `QuerySession.Session.ReceiveLinked` | src/query_api.cpp:311-331 | an unsafe link or one followed before is refused and nothing is sent; another is followed by one request and its answer delivered, or the error is true |
| `QuerySession.Session.FollowLink` | src/query_api.cpp:313-320 | a checked link always carries the query's id, so that learning it here is unreachable, and the response is the decoded answer to the one request |
| `QuerySession.Session.NextChunk` | src/query_api.cpp:291-334 | delivers the next chunk, counted and of the right width; reports the end when and only when all announced rows arrived, and stably; a failure with a known id deletes the query and everything later throws and sends nothing; the first error of a cursor is true of the latest answer, the link, the clock or the user |
| `QuerySession.Session.NextArrowChunk` | src/query_api.cpp:341-375 | offers the successful answer to the next chunk in order, the index not advancing; refuses while one is unreported; a failure is final and its error true, a demand to reauthenticate being told from any other refused answer |
| `QuerySession.Session.ReportArrowChunk` | src/query_api.cpp:377-401 | charges the rows and advances, or charges nothing and abandons the query, because of the clock, the user or rows that do not fit |
| `QuerySession.Session.Charge` | src/query_api.cpp:384-393 | passes exactly when rows, cells and announced rows allow; the division check makes the product fit 64 bits |
| `QuerySession.Session.PollUntilDone` | src/query_api.cpp:447-458 | ends on every tape and returns the answer to its last request; every poll is paid for by a sleep |
| `QuerySession.Session.PollsWithin` | src/query_api.cpp:447-458 | a preparation sends at most (overall timeout - 1) / poll interval polls |
| `QuerySession.Session.EnterNumbered` | src/query_api.cpp:461-472 | numbered mode needs a safe id and announced totals within the limits |
| `QuerySession.Session.FetchMetadata` | src/query_api.cpp:473-487 | the metadata is the decoded answer to the metadata request, not empty and complete for numeric columns |
| `QuerySession.NumericColumnsComplete` | src/query_api.cpp:481-487 | holds exactly when every numeric column has precision and scale |
| `QuerySession.Session.EnterLegacy` | src/query_api.cpp:488-494 | keeps the completed response as the first chunk |
| `QuerySession.Session.Prepare` | src/query_api.cpp:417-502 | on success everything is still to be fetched and what the session expects is what the server announced; a failure leaves it terminal exactly when the id is known, and its error is true of the arguments, the latest answer, the clock or the user; bad arguments send nothing |
| `QueryTrace.ChunksInOrder` | src/query_api.cpp:303-306 | the i-th chunk request of a session's trace is for chunk i and was answered |
| `QueryTrace.NoRevisitCounts` | src/query_api.cpp:313-314 | as many distinct links as link requests, so the chain is as short as its visited set |
| `ChunkPath.IsSafeQueryId` | src/query_api.cpp:46-52 | accepts exactly 1 to 128 alphanumerics, hyphens and underscores |
| `ChunkPath.IsSafeChunkPath` | src/query_api.cpp:54-69 | accepts exactly "/api/v3/query/" + safe id + "/chunks/" + 1 to 20 digits |
| `ChunkPath.IdRecovered` | src/query_api.cpp:71-77 | the id read back from a safe path is the id it was built from |
| `ArrowReader.Reader.Next` | src/arrow_ipc_chunk_reader.cpp:253-282 | emits exactly min(capacity, rows left), in order, over any batches including empty ones; fails exactly when one of those rows does not convert or the stream breaks off first; the end is stable |
| `ArrowReader.Reader.LoadBatch` | src/arrow_ipc_chunk_reader.cpp:208-233 | moves to the next batch without losing a row; ends only on a sound stream |
| `ArrowReader.Reader.ConvertSlice` | src/arrow_ipc_chunk_reader.cpp:235-251 | converts exactly the slice asked for |
| `ArrowScan.Validate` | src/data360_extension.cpp:130-142 | passes exactly the responses that decode whole, have the bound types and convert, and counts their rows |
| `ArrowScan.OpenReader` | src/data360_extension.cpp:144-147 | opens a reader over exactly the decoded rows, refusing missing content type, empty or oversized bodies and other types |
| `ArrowScan.ArrowScanSource.Emit` | src/data360_extension.cpp:120-123 | emission of a validated response cannot fail |
| `ArrowScan.ArrowScanSource.Next` | src/data360_extension.cpp:118-152 | emitted rows are always a prefix of the rows of charged responses; the end is reported only when they are all rows of all announced chunks, in order, as many as announced; a failure emits nothing, is final, and happens only when the response was not to be had, is not acceptable or does not fit |
| `ArrowRuns.ScanAll` | src/data360_extension.cpp:118-152 | a whole scan ends and collects all the rows of all the chunks in order, or fails for such a reason; against a server whose next answers bring all announced chunks, acceptable and within the limits, it collects exactly their rows |
| `ScanBuffer.ScanBuffer.FillDataChunk` | src/scan_runtime.cpp:33-65 | fills the vector or reaches the end, rows in order; fetches nothing while the buffer suffices, and never a chunk that was not needed; fails only if the cursor does, for a true reason, or at the first of these rows that does not cast, naming the first such column |
| `ScanBuffer.ScanBuffer.Refill` | src/scan_runtime.cpp:39-46 | fetches only when the buffer is empty, and keeps what was received equal to what was taken and what is left; fails only if the cursor does, for a true reason |
| `ScanBuffer.ScanBuffer.AllTaken` | src/scan_runtime.cpp:42-44 | at the end every row of a complete result has passed through the buffer, in order |
| `ScanBuffer.CastRow` | src/scan_runtime.cpp:49-61 | nulls stay null, other cells are cast; fails exactly when a cell does not cast and names the first such column |
| `Base64Url.Base64Url` | src/oauth_pkce.cpp:51-69 | the streaming encoder with its wrapping 32-bit accumulator computes the 3-byte-group encoding of section 5 of RFC 4648 without padding |
| `Base64Url.EncodeLength` | src/oauth_pkce.cpp:54-54 | the length is ceil(4n/3), as reserved |
| `Base64Url.Absorbed` | src/oauth_pkce.cpp:58-58 | shifting a byte in loses nothing that is still to be read |
| `Base64Url.DecodeEncode` | src/oauth_pkce.cpp:51-69 | a strict decoder inverts the encoder |
| `Base64Url.EncodeDecode` | src/oauth_pkce.cpp:51-69 | only encodings decode |
| `Base64Url.IsBase64UrlValue` | src/oauth_pkce.cpp:126-136 | accepts exactly the strings of the alphabet within the bounds |
| `Base64Url.GeneratePkceVerifier` | src/oauth_pkce.cpp:179-181 | 32 bytes make a 43-character verifier that section 4.1 of RFC 7636 and every later check accept, and that determines the bytes |
| `Base64Url.GenerateOpaqueId` | src/oauth_pkce.cpp:183-189 | 16 bytes make a 22-character value, likewise |
| `Base64Url.CreateS256Challenge` | src/oauth_pkce.cpp:191-197 | refuses exactly the malformed verifiers; a challenge is accepted by the URL builder and decodes to the digest |
| `PercentCoding.PercentEncode` | src/oauth_pkce.cpp:110-124 | computes the percent-encoding whose decoding is characterised below |
| `PercentCoding.PercentDecode` | src/loopback_listener.cpp:89-120 | decodes, distinguishing malformed from oversized input |
| `PercentCoding.RoundTrip` | src/loopback_listener.cpp:89-120 | decoding an encoded string returns the original if and only if it has no control character and at most 2048 bytes |
| `QueryString.ParseQuery` | src/loopback_listener.cpp:122-142 | the scanning loop computes the fields of the items between the separators |
| `QueryString.CollectedExactly` | src/loopback_listener.cpp:128-135 | a query is accepted if and only if every item is key=value with a key and no key occurs twice; the map is exactly its fields |
| `QueryString.ParsedQuery` | src/loopback_listener.cpp:122-142 | parsing any built query returns exactly its pairs, if and only if keys are distinct and not empty and everything survives the coding |
| `AuthorizationUrl.BuildSalesforceAuthorizationUrl` | src/oauth_pkce.cpp:231-252 | exactly which requests are built, and that the query of the URL parses back to exactly the original fields |
| `AuthorizationUrl.ValidateSalesforceLoginOrigin` | src/oauth_pkce.cpp:215-229 | accepts exactly the two fixed hosts and My Domain hosts, with one slash tolerated |
| `CallbackRequest.ParseOAuthCallbackRequest` | src/loopback_listener.cpp:448-512 | accepts exactly the requests that are a callback request line, header lines with exactly one Host equal to localhost:8910 and none announcing a body, a blank line and nothing more, with distinct query fields; and which result they give |
| `CallbackRequest.CheckHeaders` | src/loopback_listener.cpp:468-493 | the header loop passes exactly when every line is a permitted header and one is the Host |
| `CallbackRequest.CheckHeader` | src/loopback_listener.cpp:471-489 | which single lines pass |
| `CallbackRequest.TrimmedExactly` | src/loopback_listener.cpp:480-482 | trimming leaves exactly what stood between the blanks |
| `CallbackRequest.NoHeaders` | src/loopback_listener.cpp:467-474 | a request without headers is refused although the length of its header text wraps |
| `Origins.ValidMyDomainHost` | src/oauth_pkce.cpp:81-108 | the one-pass scanner accepts exactly host names of valid labels under the suffix, at most 253 bytes |
| `Origins.ValidDnsOrigin` | src/salesforce_oauth_provider.cpp:63-82 | the splitting scanner accepts exactly https origins of host names under the suffix, of at most 253 bytes, overlooking one trailing dot, which neither suffix of the program lets through |
| `Origins.IsTrustedTenantUrl` | src/query_api.cpp:17-44 | accepts exactly https URLs of host names under the tenant suffix, one slash tolerated |
| `Origins.ScannersAgree` | src/oauth_pkce.cpp:81-108 | the one-pass and the splitting scanner, called on the same host, answer alike |
| `Origins.TenantOriginExactly` | src/query_api.cpp:17-44 | the exchange accepts a tenant origin if and only if the query client trusts it, it has no trailing slash and its host is at most 253 bytes |
| `Origins.ExchangedTenantUrl` | src/salesforce_oauth_provider.cpp:269-281 | every tenant URL handed out is trusted by the query client |
| `TokenExpiry.ExpiryOf` | src/salesforce_oauth_provider.cpp:277-298 | refuses exactly when the token is within the skew or an instant does not fit, and otherwise both instants are exact |

## Left out

- Sockets, libcurl, system entropy, SHA-256 and thread joining: replies, drawn ids, digests and stopped owners are inputs or outputs of the model.
- The JSON codec (`JsonQueryResponseCodec::Decode`, `ParseOAuthTokenResponse`, `ParseData360Response`): a decoded response is arbitrary.
- `nanoarrow` decoding, `IsArrowMediaType`, `ReadBody`, `ValidateSchema` and DuckDB vector conversion: a decoder is any function from content type and body to batches, a row converts or does not; that a body is used up is part of a stream being sound. `ArrowContentType` is reduced to the one content type, empty for none or several.
- `type_mapping.cpp`, `error_codes.cpp`, `ExpectedArrowSchema`, `BindLogicalType`, `ProjectAuthStatus`, `MetadataCompatible`: finite tables, settled by inspection.
- Function registration, binding, diagnostics and the text of error messages.
- Changes to the secret catalog made by SQL outside `InstallTemporarySessionSecret`; existing secrets of another type or provider count as absent.
- `ProcessAuthCallback` and the callback worker: its calls are among the arbitrary outside calls of the completion model.
- `Create` with a time to live (src/auth_session_registry.cpp:214-226): a wrapper that computes the expiry.
- `JsonEscape` and the request body, headers and URL prefix: a request is its endpoint, timeout and response cap.
- Clocks are unbounded and never go back; an interrupt, once seen, stays; `SleepMs` sleeps at least its argument unless interrupted. The started clock is read when the session is constructed.
- Strings that are moved from or cleared are empty afterwards.
- QueryRuns.Execute: a condition on the world alone under which it succeeds is given for results in one answer or in numbered chunks; for a chain of links every error is proved to have its cause in the recorded run.
- CompletionProofs.CatalogCoherent: assumes that `GenerateOpaqueId` never reissues an id within a run, as a run with a reissued id is not a run of the model.
- Base64Url.GeneratePkceVerifier: the entropy is a parameter of exactly the size the program asks for.
- QuerySession.Session.Budgeted: cells equal rows times columns only until an Accept has thrown, which may stop after counting some rows.
