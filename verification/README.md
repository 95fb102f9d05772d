# A verified model of the moenotes session gateway

The gateway answers public queries with one game session per region. This project models
the parts of it that decide which session may speak, what may be cached, what is saved and
what a request turns into, and proves what those parts keep over all runs and all inputs.
`dafny verify dfyconfig.toml` checks everything.

Three components can replace a session: a recovery worker that logs in again, a poller that
follows new game versions, and an operator's reload. They are coordinated by a handful of
flags only. `Managed` holds those flags and the sections that update them in place;
`ManagedRuns` lets the three writers, the authenticated queries and the clock interleave
freely and proves that the writers exclude each other, that recoveries are budgeted per
chain of generations and start exactly when the budget, the cooldown and the outcome say so,
and that nothing travels on a login that has not been saved.
`Recovery` and `Persist` are what a worker does in detail, down to the order of its file
operations, which `PersistRuns` interleaves and interrupts anywhere; every outcome of one
save is shown to be such a run. `RecoveryRuns` follows the account worker over runs of
calls and reloads, and shows that whatever a worker leaves behind is a sequence of steps of
`ManagedRuns`, so that what is taken for granted about workers there is proved of them.

`Cache` and `CacheRuns` are the coalescing cache in front of a client. Its byte count is
right only because a key in flight is never stored, which is part of the invariant.
`CacheReplies` says what callers get: hits, coalescing, refusals, and how an upstream answer
reaches all who wait for it.
`Client` and `ClientRuns` are the client's sessions: one serial slot, a rate clock, blocks
that are recorded per generation, installs that compare and swap, and the one-shot override
header of the JP region. `Pool` and `PoolRuns` are the rotation over several sessions.

The rest transforms data: `Form` (the signed forms of the SDK) with `Pairs`, `Bytes` and
`Splitting`; `WebForm` and `PathRoutes` (readable paths as query strings); `Query` and
`QueryObject` (query strings as JSON objects); `Aliases` (what a readable path means);
`Schema` (the schemas of the published document); `Projection` (the public fields of a
response); `Versions` (version texts) and `Errors` (the precedence of error codes).

State that the program updates in place is a class here; every method of such a class is
proved against a specification function on values, and the run theorems are about those
functions. A run is a sequence of states and events. An event carries everything that the
environment decides: answers, errors, times and fresh identifiers. One event is one segment
between two suspension points of the program, or one section under a lock.

## What turned out false

Following a client update can generate candidates that the client itself refuses:
`patch_successors` adds to the patch number up to the range of a 32-bit integer, while
`adopt_client_version` reads at most nine digits. `Versions.LastPatchHasNoAdoptableSuccessor`
is a concrete input; `Versions.SuccessorsAdoptable` gives the exact condition for every input.

## Model

| member | source | states |
|---|---|---|
| `Errors.VersionRefusals` | client/src/error.rs:74-86 | the deciding code alone identifies the two version refusals; they exclude each other and both are version errors |
| `Errors.LastTrailingCodeDecides` | client/src/error.rs:64-74 | a readable trailing code settles the kind whatever the initial metadata, the earlier codes, the unreadable values after it and the status are |
| `Errors.TrailingCodeMeans` | client/src/error.rs:64-86 | the last readable trailing code gives the error its kind: maintenance, authentication, version, device conflict, or business for any other text |
| `Errors.InitialCodeMeans` | client/src/error.rs:74-86 | without a readable trailing code the last readable initial one does |
| `Errors.StatusDecides` | client/src/error.rs:75-86 | without a readable code there is an error exactly for a status other than OK, of kind timeout for an exceeded deadline and transport otherwise |
| `Managed.ManagedClient.Observe` | server/src/managed.rs:206-295 | the section that observes a query's result updates the fields in place and launches at most one worker; when it does, and what it shows otherwise, is stated by `RecoveryStarts`, `LoadStarts` and `OutcomeIsShown` |
| `Managed.ManagedClient.Finish` | server/src/managed.rs:295-322 | the end of a worker: success, refusal of the client version, failure before and after the session was replaced |
| `Managed.ManagedClient.Reload` | server/src/managed.rs:189-205 | reload is refused while a worker or a version check runs, changes nothing when the replacement fails, and otherwise clears every budget |
| `Managed.ManagedClient.BeginSync` | server/src/managed/versions.rs:52-61 | a version check starts only when none runs and the gate is open |
| `Managed.ManagedClient.EndSync` | server/src/managed/versions.rs:88-120 | budgets of the old generation are carried to the new one, or granted again when a followed update answers a refused worker |
| `Managed.SearchCandidates` | server/src/managed/versions.rs:70-87 | the first candidate that is not refused as well decides; if all are refused the first refusal stands |
| `ManagedRuns.WritersNeverOverlap` | server/src/managed.rs:194-205 | in every run worker, version check and reload exclude each other; the phase is recovering exactly while one worker lives; attempts = successes + failures + the one under way |
| `ManagedRuns.GateReopens` | server/src/managed.rs:285-322 | the closed gate opens only by a worker that ended with its session saved or untouched, or by a reload that replaced the session |
| `ManagedRuns.PersistedBetween` | server/src/managed.rs:115-127 | between the login of a generation and a state where it is not unsaved lies its save |
| `ManagedRuns.NoTrafficBeforePersist` | server/src/managed.rs:335-365 | no authenticated request reaches the transport on a session that a worker's login installed before that login was saved |
| `ManagedRuns.RecoveryBudget` | server/src/managed.rs:274-284 | in every run the recoveries on one chain of version updates number at most one plus the workers on it refused for the client version, recoveries between reloads are a cooldown apart, and a lazy load repeats only with changed input |
| `ManagedRuns.RecoveryStarts` | server/src/managed.rs:206-289 | in every run an outcome starts a recovery exactly if it is an expiry of the current session seen by an authenticated query while the gate is open and no writer runs, recovery is configured, the chain has not used its recovery, and the last one since a reload is a cooldown ago |
| `ManagedRuns.FirstExpiryRecovers` | server/src/managed.rs:274-289 | the first expiry on a chain starts a worker when the cooldown has passed, whatever happened on other chains |
| `ManagedRuns.LoadStarts` | server/src/managed.rs:217-287 | in every run an outcome starts a lazy load exactly if credentials are missing and the account input differs from the last load on this chain, or budgets were granted since |
| `ManagedRuns.SpentExactly` | server/src/managed.rs:277-284 | a chain has used its recovery exactly if one was started on it and no check has granted another since |
| `ManagedRuns.OwedExactly` | server/src/managed.rs:305-308 | a chain is owed a grant exactly if a worker on it was refused for the client version and since then no worker was started and no grant given |
| `ManagedRuns.GrantedAnew` | server/src/managed/versions.rs:88-112 | a check that follows the client update that a worker was refused for lets the next expiry recover and the next missing credential load |
| `ManagedRuns.OutcomeIsShown` | server/src/managed.rs:206-265 | an outcome that starts no worker changes phase and last error alone, to what it says, and nothing at all if it is anonymous, outdated, behind the closed gate or a load asked for again |
| `ManagedRuns.GateAfterWorker` | server/src/managed.rs:295-322 | the phase after each end of a worker; the gate stays closed exactly if it failed after replacing the session, or a recovery found its files unusable |
| `ManagedRuns.CheckIsShown` | server/src/managed/versions.rs:52-120 | a check may begin exactly when no writer runs and the gate is open; its end resets the phase exactly if it installed a session and granted budgets or no block is left |
| `ManagedRuns.ReloadReplaces` | server/src/managed.rs:189-205 | a reload takes effect exactly when no other writer runs and its session could be installed, and then opens the gate on a chain that has used nothing |
| `Cache.QueryCache.Call` | server/src/cache.rs:102-125 | one locked section of a caller: expired and foreign entries leave, bytes are recounted, then hit, coalesce, refuse or miss; which of them is stated by the lemmas of `CacheReplies` |
| `Cache.QueryCache.Evict` | server/src/cache.rs:160-173 | the eviction loop terminates and removes exactly the least recently touched entries that must go |
| `Cache.QueryCache.Publish` | server/src/cache.rs:148-186 | the worker's locked section: store if allowed and possible, publish the outcome, end the flight |
| `Cache.LookupKeepsValid` | server/src/cache.rs:102-126 | a caller's section keeps bytes = sum of sizes, all bounds, and flights apart from entries |
| `Cache.PublishKeepsValid` | server/src/cache.rs:154-186 | a worker's section keeps them too, because a key in flight is never stored |
| `Cache.OldestLeaveFirst` | server/src/cache.rs:164-169 | no survivor is less recently touched than a victim, and victims go in the order of their age, each once |
| `Cache.EvictionsSuffice` | server/src/cache.rs:160-163 | after the evictions the answer fits, and with one victim fewer it would not have |
| `CacheRuns.BudgetsHold` | server/src/cache.rs:102-186 | in every reachable state bytes is the sum of the stored sizes and within its bound, and entries and flights are within theirs |
| `CacheRuns.SingleFlight` | server/src/cache.rs:118-148 | per key at most one execution is under way; a waiter without a result has a live worker |
| `CacheRuns.KeyFromBegin` | server/src/cache.rs:95-101 | the key of a pending call was formed at its begin from the generation current then |
| `CacheRuns.RepliesAreGenuine` | server/src/cache.rs:108-117 | every successful reply is an upstream answer to exactly the query asked, in the generation current at begin and now; a hit is younger than the time to live |
| `CacheRuns.ExecutedByUpstream` | server/src/cache.rs:127-147 | an answer counts only after a successful execution of that key's query in its generation |
| `CacheReplies.CallsCoalesce` | server/src/cache.rs:118-119 | in every run a call whose key is being executed waits for exactly that execution and starts none |
| `CacheReplies.QueueIsFull` | server/src/cache.rs:118-123 | a call is turned away for a full queue exactly if its answer is neither in store nor being executed and as many keys as allowed are |
| `CacheReplies.MissesExecute` | server/src/cache.rs:124-147 | any other call for a key that is not in store starts exactly one execution |
| `CacheReplies.HitsAreServed` | server/src/cache.rs:108-117 | a call is answered from the store exactly if an answer younger than the time to live is there, the session is current and the client does not refuse |
| `CacheReplies.CallsKeepStore` | server/src/cache.rs:102-107 | a call leaves in store exactly the unexpired entries of its generation |
| `CacheReplies.AnswersAreStored` | server/src/cache.rs:148-186 | an outcome is published as it is, or as a changed session, and stored exactly if it is an answer, the client does not refuse, storing is on and it can fit |
| `CacheReplies.LeavesStore` | server/src/cache.rs:102-173 | what is in store leaves it only expired, for a call of another generation, as a victim or for a newer answer |
| `CacheReplies.LeastRecentlyUsedLeave` | server/src/cache.rs:108-173 | no survivor of an eviction was used less recently than a victim, where use is being stored or found for a caller not refused |
| `CacheReplies.AnswersReachWaiters` | server/src/cache.rs:127-205 | an upstream answer or error is the reply of everyone who waits for its execution, if the session stays and the client does not refuse |
| `Client.InstallKeepsSound` | client/src/versions.rs:142-170 | every installed session passes validation; an update keeps identity and lifts only a version block for cause |
| `Client.RecordKeepsSound` | client/src/lib.rs:303-326 | recording an error keeps the session sound; version and device blocks never change |
| `Client.PresentableHeaders` | client/src/session.rs:175-224 | configuration and credentials can be presented exactly if every header that is sent can hold its value, player and secret are not empty, and JP credentials have no bid |
| `Client.HeadersOfRegion` | client/src/session.rs:189-220 | anonymous calls carry nothing of the player, JP calls neither bid nor resource version |
| `Client.SessionCell.Record` | client/src/lib.rs:303-326 | which errors of which calls become the session's block, and the mismatch flag with it |
| `Client.ClientCell.Finish` | client/src/auth.rs:301-347 | compare the generation, then swap in the new session and cancel the old one, otherwise nothing changes; which session that is, is stated by `LoginTakesEffect` and `CheckTakesEffect` |
| `ClientRuns.OneChain` | client/src/lib.rs:158-188 | in every run exactly the superseded sessions are cancelled and every session ever installed has a valid configuration and presentable credentials |
| `ClientRuns.EveryInstall` | client/src/lib.rs:333-343 | in every run a new session comes from a replacement or over the one its call started from; a login or registration finds no version or device block; an update keeps identity and lifts only a version block for cause |
| `ClientRuns.LoginTakesEffect` | client/src/auth.rs:301-347 | in every run a login or registration installs a session exactly if it succeeded, was not cancelled and gave presentable, for a registration saved, credentials; the session is that of exactly these credentials, on the old configuration, without block or mismatch |
| `ClientRuns.CheckTakesEffect` | client/src/versions.rs:117-172 | in every run a check installs a session exactly if it found acceptable versions that differ; the session has exactly these versions and the presented client version, keeps the identity, and loses exactly a version block that the update answers |
| `ClientRuns.NothingElseInstalls` | client/src/lib.rs:158-188 | no error, query or test for a role installs a session; a replacement and an import install exactly what they are given |
| `ClientRuns.ErrorsAreRecorded` | client/src/lib.rs:303-326 | in every run an error becomes the session's block exactly if it is an authentication error, a version error or a device conflict of an authenticated call or a login and no lasting block is there |
| `ClientRuns.UpdateKeepsIdentity` | client/src/versions.rs:148-172 | refresh and adoption keep credentials, origin, region and override flag, and clear a version block only for a master mismatch or a new client version |
| `ClientRuns.BlocksLast` | client/src/lib.rs:309-325 | in every run a session keeps configuration and credentials, its block stays a block, and a version or device block stays what it is |
| `ClientRuns.EveryDeparture` | client/src/lib.rs:282-302 | in every run what leaves for the transport belongs to the current session and is not refused at that moment; answers are judged only while it is current |
| `ClientRuns.AdmittedExactly` | client/src/lib.rs:276-282 | a call is admitted exactly if it is made on the current session, the session has what the call needs, and the queue is not full |
| `ClientRuns.SlotIsTaken` | client/src/lib.rs:282-290 | at the head of the queue a call is turned away exactly if its session is blocked and it is authenticated, or a login or registration and the block a lasting one; otherwise it gets the slot |
| `ClientRuns.RateHolds` | client/src/lib.rs:276-302 | at most queue + 1 calls are admitted, one is in the transport, and the n-th departure after any other is at least n intervals later, across cancellations and replacements |
| `ClientRuns.NextDeparture` | client/src/lib.rs:290-291 | the call that holds the slot may leave exactly one interval after the last departure |
| `ClientRuns.OverrideOnce` | client/src/lib.rs:291-332 | on a chain of updates that began with a registration, authenticated calls carry the override header exactly until the first of them returned Ok; no other call carries it |
| `ClientRuns.SettledStays` | client/src/versions.rs:159-170 | once an authenticated call on a registered chain has returned Ok, the chain stays settled in every later state, through refreshes and adoptions |
| `ClientRuns.SettledExactly` | client/src/lib.rs:328-332 | a chain is settled exactly if an authenticated call on it has returned Ok before |
| `Versions.FormatParses` | client/src/versions.rs:28-39 | a formatted patch version is read back unless one of its numbers has ten digits |
| `Versions.SuccessorsAdoptable` | client/src/versions.rs:43-51 | candidate k is the k-th next patch release and can be adopted if and only if its patch number has at most nine digits |
| `Versions.SuccessorsCounted` | client/src/versions.rs:43-51 | there are as many candidates as asked for or as fit in 32 bits, and none after another text |
| `Versions.LastPatchHasNoAdoptableSuccessor` | client/src/versions.rs:75-83 | 1.0.999999999 generates candidates of which none can be adopted |
| `Versions.ParsePatch` | client/src/versions.rs:28-39 | the parser's loop gives the three numbers exactly of texts of three short decimal parts |
| `Versions.SelectAsset` | client/src/jp.rs:75-84 | the first entry with the greatest minimum client version not above the client's |
| `Versions.LessAtFirstDifference` | client/src/jp.rs:75-84 | versions are compared at the first number that differs |
| `Versions.NumericVersionReads` | client/src/jp.rs:38-55 | two to four numbers below 2^31 with dots between them are read as a version, missing ones as zero; other lists of numbers are not |
| `Versions.MasterReads` | client/src/jp.rs:27-37 | a master version is such a version, a slash and 32 lower-case hexadecimal digits, of at most 128 characters |
| `Versions.PatchVersionIsHeaderText` | client/src/versions.rs:81-106 | an adoptable client version can be sent as metadata |
| `Versions.MasterIsHeaderText` | client/src/jp.rs:27-37 | a valid JP master version can be sent as metadata |
| `Pool.SessionPool.CooldownError` | server/src/pool.rs:32-41 | a cooldown counts only before its deadline and in its generation, and is dropped otherwise |
| `Pool.SessionPool.Choose` | server/src/pool.rs:110-135 | the scan chooses the first member not skipped from the cursor and moves the cursor behind it; with none it keeps the cursor and reports the first error in rotation order |
| `Pool.SessionPool.Completed` | server/src/pool.rs:136-153 | transient failures cool a member down for five seconds if its generation did not change |
| `PoolRuns.ScanIsTurn` | server/src/pool.rs:114-135 | the scan is one turn of the rotation over the members open at that moment |
| `PoolRuns.OpenExactly` | server/src/pool.rs:118-130 | a member of a pool of several is passed over exactly while it cools down in its generation or its client refuses, for that reason; the only member never is |
| `PoolRuns.BoundedBypass` | server/src/pool.rs:110-131 | in any rotation a member that every turn finds open is picked within its distance from the cursor |
| `PoolRuns.ChosenWithinOneRound` | server/src/pool.rs:110-131 | in every run of pool states, cooldowns, errors and generations changing between dispatches, a member that n dispatches in a row find open is chosen by one of them |
| `PoolRuns.NoOvertaking` | server/src/pool.rs:110-131 | in such a run, while a member that every dispatch finds open waits, no other member is chosen twice |
| `PoolRuns.EqualShares` | server/src/pool.rs:110-131 | in such a run with all members open, the numbers of dispatches that two members got differ by at most one |
| `PoolRuns.CooldownLasts` | server/src/pool.rs:31-42 | a cooldown stays for five seconds, whatever is scanned, reported or fails meanwhile |
| `PoolRuns.FailedMemberRests` | server/src/pool.rs:140-151 | a member that failed transiently is not chosen for five seconds unless its generation changes |
| `Splitting.SplitJoin` | server/src/path_routes.rs:229-236 | splitting at a separator undoes joining |
| `Splitting.JoinSplit` | server/src/path_routes.rs:229-236 | joining undoes splitting, and no piece holds the separator |
| `Pairs.ReadWritten` | client/src/sdk_http/form.rs:67-75 | pairs written as name=value are read back in order, duplicates included |
| `Form.Encode` | client/src/sdk_http/form.rs:9-23 | the encoding loop computes the encoding function |
| `Form.EncodeRaw` | client/src/sdk_http/form.rs:26-37 | the two passes for raw values compute the raw encoding |
| `Form.EncodedTwice` | client/src/sdk_http/form.rs:6-23 | encoding is idempotent |
| `Form.DecodedEncoded` | client/src/sdk_http/form.rs:9-48 | decoding an encoded value is decoding the value without tabs and line breaks, for every byte string, broken percent sequences included |
| `Form.DecodedRaw` | client/src/sdk_http/form.rs:26-48 | a raw value is decoded to itself; decoding fails exactly on ill-formed UTF-8 |
| `Form.EncoderAlphabet` | client/src/sdk_http/form.rs:6-23 | letters, digits and % * + - . _ stay as they are, tabs and line breaks go, all others become upper-case escapes |
| `Form.RawAlphabet` | client/src/sdk_http/form.rs:26-37 | raw values keep exactly letters, digits and - . _ * |
| `Form.SortedUnique` | client/src/sdk_http/form.rs:54-64 | an ordered map is determined by what it holds, so the order of insertion cannot show |
| `Form.ValuesAreLast` | client/src/sdk_http/form.rs:54-58 | the signed map holds exactly the last decoded value of every name |
| `Form.SignForm` | client/src/sdk_http/form.rs:50-82 | the three loops compute the signed body, or refuse; the body is spelled out by `SignedAsSpelled` |
| `Form.SignedAsSpelled` | client/src/sdk_http/form.rs:54-82 | the body is the fields, &sign= and the hexadecimal digest of the last values of all names but the item fields, decoded and joined in ascending order of the names, followed by the key |
| `Form.AscendingAreSigned` | client/src/sdk_http/form.rs:54-82 | with ascending names and no item fields the decoded values are signed one after the other |
| `Form.LessIsLexicographic` | client/src/sdk_http/form.rs:54-58 | names are ordered by the first byte that differs, prefixes first |
| `Form.UnsignedAreItems` | client/src/sdk_http/form.rs:61-63 | unsigned are exactly item_name and item_desc, in any letter case |
| `Form.LowerHexReadsBack` | client/src/sdk_http/form.rs:66-66 | the digest is written with two lower-case digits for every byte, which are read back as it |
| `Form.SignatureOfLastValues` | client/src/sdk_http/form.rs:55-66 | the signature depends on the last values of the signed names alone; item names and descriptions play no part in any letter case |
| `Form.SignatureIgnoresOrder` | client/src/sdk_http/form.rs:54-66 | reordering fields without reordering those of one name leaves the signature, or the refusal, unchanged |
| `Form.BodyReadsBack` | client/src/sdk_http/form.rs:67-82 | signing fails exactly on an undecodable value or a body over 64 KiB; otherwise the body splits into the fields followed by the signature |
| `Form.Build` | client/src/sdk_http.rs:367-404 | which fields get which encoding, in which order, then signing; refused for an invalid user |
| `Form.ServerReads` | client/src/sdk_http.rs:367-404 | whoever receives the body reads the caller's values as meant, the user, the common parameters, time and web code and the signature, and nothing else |
| `WebForm.ParsedSerialized` | server/src/path_routes.rs:223-241 | form parsing undoes form serializing on UTF-8 pairs |
| `WebForm.SerializerAlphabet` | server/src/path_routes.rs:223-241 | letters, digits and * - . _ stay, a space becomes a plus sign, all others upper-case escapes |
| `Bytes.TextIsUtf8` | client/src/sdk_http/form.rs:39-48 | the encoding of any characters is well-formed |
| `Bytes.Utf8IsText` | client/src/sdk_http/form.rs:39-48 | every well-formed byte string is the encoding of some characters |
| `WebForm.NothingReplaced` | server/src/query_params.rs:35-48 | after the strict tests the forgiving parser replaces nothing: every name and value decodes to well-formed UTF-8 |
| `PathRoutes.Translate` | server/src/path_routes.rs:209-250 | the loops compute the query string of a path, or refuse on the conditions of the source |
| `PathRoutes.AcceptedExactly` | server/src/path_routes.rs:209-250 | a path is accepted exactly if every parameter is there, not empty, without control characters and within its limits, the query names no field of the path, and neither it nor the whole is over 8 KiB |
| `PathRoutes.FieldPairsMean` | server/src/path_routes.rs:224-239 | a field contributes its value, or one to 100 non-empty items that joined by commas are the value |
| `PathRoutes.PathThenQuery` | server/src/path_routes.rs:209-250 | parsing the query string of an accepted path gives the pairs of the path, then exactly those of the raw query, none of which names a field of the path |
| `PathRoutes.PathFieldsAreFixed` | server/src/path_routes.rs:218-222 | the raw query can neither add to nor replace a field of the path, and the path leaves all other fields alone |
| `Aliases.PathIsStrict` | server/src/query_params.rs:35-48 | the text built from a path passes the parser's strict tests exactly if the caller's own query does, whatever characters the path parameters hold |
| `Aliases.PathIsQuery` | server/src/path_routes.rs:167-178 | an accepted path means exactly what the query with the caller's parameters first and the path's after them means: the same object, or the same refusal |
| `Query.Collect` | server/src/query_params.rs:12-28 | the recursive collection of dotted names computes the list of leaves |
| `Query.FindIsLeafAt` | server/src/query_params.rs:66-69 | looking a key up in the collected list is walking its dotted path through the messages |
| `Query.IntegersKeepTheirValue` | server/src/query_params.rs:111-139 | an integer is accepted exactly if it is a numeral in range, and two texts give the same JSON exactly when they denote the same number |
| `Query.ScalarsSay` | server/src/query_params.rs:111-145 | a text is accepted exactly if it can be read as its kind, and the JSON value says the same: 64-bit integers as text without superfluous characters, smaller ones as equal numbers, true and false as truth values |
| `QueryObject.BuildObject` | server/src/query_params.rs:57-77 | the loop computes the object of the parameters, or refuses |
| `QueryObject.Parse` | server/src/query_params.rs:30-77 | length, escapes and UTF-8 are tested before the parameters are parsed |
| `QueryObject.InsertTree` | server/src/query_params.rs:81-109 | inserting along a path keeps the object that the parameters tell and is refused exactly for a second value of a field that is not repeated |
| `QueryObject.BuiltObject` | server/src/query_params.rs:62-77 | the loop succeeds exactly on at most 256 parameters with allowed keys, parsing values and unique scalar keys, and then gives the object told without inserting |
| `QueryObject.ObjectHolds` | server/src/query_params.rs:62-109 | every allowed key holds exactly its own values, in order and with duplicates where the field is repeated, and nothing where it was not given |
| `QueryObject.ObjectSays` | server/src/query_params.rs:62-145 | each value of an accepted object says what the text given for it says |
| `QueryObject.OrderAcrossKeys` | server/src/query_params.rs:62-109 | two parameter lists that give every key the same values in the same order build the same object or are both refused |
| `Schema.Walk.VisitMessage` | server/src/openapi.rs:145-169 | the visit terminates on every finite graph, cyclic or not, and adds finished schemas of messages reached from there whose references are present |
| `Schema.Walk.VisitKind` | server/src/openapi.rs:170-192 | a message becomes a reference to a schema that is then present; other kinds add nothing |
| `Schema.Walk.VisitRoots` | server/src/openapi.rs:8-18 | the schemas are exactly those of the messages reachable from the routes, each as rendered without walking |
| `Schema.GrownThrough` | server/src/openapi.rs:152-164 | visits compose: what a field's message adds is reached from the message that holds the field |
| `Schema.NoDanglingReference` | server/src/openapi.rs:145-176 | every reference names a schema of the document and no placeholder is left |
| `Schema.FieldsAreListed` | server/src/openapi.rs:152-168 | every field of a message is in its schema with its own kind |
| `Schema.DocumentAcceptsExactly` | server/src/openapi.rs:145-192 | the schema of a reachable message accepts exactly the JSON values of that message: single, repeated and mapped fields, nested and recursive messages, and no other properties |
| `Projection.ProjectKind` | server/src/projection.rs:150-191 | the loop over the public names computes the projection of a value; recursion ends with the JSON value even if messages are recursive |
| `Projection.ProjectMap` | server/src/projection.rs:159-168 | maps keep all keys and project their values |
| `Projection.ProjectList` | server/src/projection.rs:169-177 | lists project every element in order, or fail |
| `Projection.ProjectedTwice` | server/src/projection.rs:150-191 | a projected response is projected to itself |
| `Projection.KeptExactly` | server/src/projection.rs:150-191 | the projection holds a value at a path exactly if the path is public and the response has one there; leaves are the response's own and lists keep their length |
| `Projection.ProjectedExactly` | server/src/projection.rs:150-191 | a response can be projected exactly if at every public path where it has a value this is an object or a list where the field demands one, and the field is one of the message |
| `Projection.PrivateFieldsDoNotMatter` | server/src/projection.rs:150-191 | responses that agree on the public paths project alike or fail alike |
| `Persist.StateDir.Create` | client/src/secret_file.rs:48-77 | a file is created whole and only under an unused name, or nothing changes |
| `Persist.StateDir.Publish` | server/src/operator.rs:118-135 | `current.json` is replaced whole or not at all, also when an error follows the replacement |
| `Persist.StateDir.Save` | server/src/operator.rs:250-274 | what a save leaves behind at each of its exits; success means one generation throughout |
| `Persist.SavedIsLoaded` | server/src/operator.rs:217-249 | a successful save is what its owner loads, and another owner is refused |
| `Persist.LoadsExactly` | server/src/operator.rs:217-249 | loading finds nothing before anything is published and otherwise exactly the files that the owner's own pointer leads to |
| `Persist.SaveSucceeds` | server/src/operator.rs:250-274 | a save succeeds exactly if its file names are unused, the session stays and has credentials, and every file can be written |
| `Persist.StillLoaded` | server/src/operator.rs:217-245 | what could be loaded still can while snapshots are kept and `current.json` is not replaced |
| `Persist.SaveIsAllOrNothing` | server/src/operator.rs:250-274 | whatever goes wrong in a save, what could be loaded before still is unless the whole new session is loaded; a save that reports success is loaded; no snapshot is lost |
| `PersistRuns.PointerNamesWholeSave` | server/src/operator.rs:250-274 | after any prefix of the operations of any interleaved saves `current.json`, if present, leads to two complete files of one save, with the credentials of its generation |
| `PersistRuns.LoadsLastPublished` | server/src/operator.rs:217-249 | what is loaded is what the last publishing save stored, for its owner only |
| `PersistRuns.PublishedStaysLoadable` | client/src/secret_file.rs:71-75 | every pointer ever published stays loadable: its files are never overwritten |
| `PersistRuns.SavesAreApart` | client/src/secret_file.rs:71-75 | two publishing saves never share a snapshot, even if their random ids collide |
| `PersistRuns.SaveIsRun` | server/src/operator.rs:250-274 | every outcome of a save, at every fault, is reached by a run of its file operations |
| `Recovery.Worker.RecoverGame` | server/src/managed.rs:84-128 | the in-place recovery takes each refusal in its order, then login, identity test and save; when it logs in and when it succeeds is stated by `RecoverySucceeds` |
| `Recovery.RecoveryKeepsIdentity` | server/src/managed.rs:84-128 | a recovery that ends well leaves a new session of the saved identity current and on disk; one that fails changed nothing or left an unsaved login; the stored identity never changes |
| `Recovery.RecoverySucceeds` | server/src/managed.rs:84-128 | a recovery logs in exactly if lock, generation, saved session, identity, authorization and role allow it and the session has neither a version block nor a device conflict, and succeeds exactly if login, identity test and save do too |
| `Recovery.Worker.LogInRole` | server/src/accounts.rs:264-294 | the in-place first login computes the login function: it stops without a role unless creation is allowed |
| `Recovery.Worker.RecoverAccount` | server/src/accounts.rs:304-391 | one call of the lazy loader turns session, selection and the directories of all accounts into those of its specification |
| `Recovery.AccountEnds` | server/src/accounts.rs:304-391 | success means the session is on disk; failure left the client alone or an unreported login; a stored identity is kept; a role is created only with the permission to do so and without a stored session |
| `Recovery.AccountSucceeds` | server/src/accounts.rs:329-391 | the lazy loader succeeds exactly by recovering a rejected session, loading a saved one or a permitted first login; a version block or device conflict stops it in any case |
| `Recovery.SelectionPasses` | server/src/accounts.rs:304-328 | a call gets to work exactly if it is not cancelled, its session is current, there is one account file and no other account was selected since the last reload |
| `RecoveryRuns.OnlyOwnDirectory` | server/src/accounts.rs:319-328 | a call changes and reads only the directory of the account that it pinned, and nothing at all when it stops before that |
| `RecoveryRuns.OneAccountBetweenReloads` | server/src/accounts.rs:321-328 | in every run of calls, reloads and outside changes, all calls between two reloads that get past the selection use one account |
| `RecoveryRuns.OtherDirectoriesRest` | server/src/accounts.rs:321-328 | from such a call to the next reload no other account's directory changes |
| `RecoveryRuns.OneSdkAccount` | server/src/accounts.rs:357-389 | all sessions that workers install for one account, across reloads, are of the SDK account that was authorized first |
| `RecoveryRuns.WorkerIsManaged` | server/src/managed.rs:295-322 | what a worker leaves behind at each exit is a sequence of enabled steps of the recovery machine, ending well only with its session on disk |
| `Accounts.PreimageTells` | server/src/accounts.rs:202-209 | different lists of parts are never hashed alike, so accounts and regions share a directory only if the hash collides |
| `Accounts.BigEndianReadsBack` | server/src/accounts.rs:202-209 | lengths are hashed with the most significant byte first |

## Left out

- gRPC, TLS, protobuf decoding and the HTTP client: their results are parts of events, and a refusal before a call is queued is one of them.
- MD5, SHA-256, RSA and UUID generation: the digest is a parameter of the signer, hashed identities are numbers, and random ids of saves may even collide; new generations are unused numbers.
- Sub-poll races inside one `select!`: one poll is one event.
- First-come order of the serial slot: any queued call may take it, which the theorems allow.
- The wrap-around of the counters for attempts and requests after 2^64 events.
- Persist.StateDir.Save: takes directory entries to become durable in the order of the calls; a filesystem that reorders renames across a power failure is not modelled.
- Recovery.Worker.RecoverAccount: permission, size and link checks of files are answers of the environment, and accounts are told apart by the hash of their user name, which is taken to tell their directories apart too.
- The import of JP credentials by the account directory: it is the import event of `ClientRuns`, without the account files.
- ManagedRuns.NoTrafficBeforePersist: that a worker ends well only with its session on disk is a condition on events there, met by both workers as `RecoveryRuns.WorkerIsManaged` shows of a worker whose session nobody else replaces while it runs.
- Version check diagnostics (`checks`, `updates`, `last_error`) and the status endpoints.
- Form.ServerReads: names are taken to be letters, digits and underscores, as all names of the SDK's forms are; `Form.BodyReadsBack` holds for every name without separators.
- JSON and TOML parsing, the final conversion of a query object to a typed query with its range checks, and trimming of asset versions after their selection.
- Query.FindIsLeafAt: takes JSON names to be unique within a message and free of dots, as protobuf requires.
- The table of public names and the table of routes: `Projection` holds for every table and `PathRoutes` for every route.
- Schema.Walk.VisitRoots: the parameters of a route are scalar and add no schema; the four private properties that the public document drops are scalar too, so dropping them leaves every reference in place.
- Request routing, bearer authentication, region inference from profile ids, access logs, shutdown and command-line tools.
