# fabricd: a verified model of the session broker

`fabricd` brokers egress for sandboxed boxes. A box opens a session with an `Init` that names logical
resources; the daemon authenticates it, resolves the names within the session's tenant, builds a set of
lazily connected backends, and then answers `Call` and `Drain` requests until the stream ends. Many
sessions run at once over an immutable credential table, one failure counter and one circuit breaker.

This project models that daemon in Dafny and proves what every run of it keeps.

## How it is laid out

| file | models |
|---|---|
| `Wire.dfy`, `Numerals.dfy` | requests, responses, error codes, routing by name; decimal numerals |
| `Resources.dfy` | the credential table, tenant-scoped resolution, the statement-timeout clamp |
| `ClientAuth.dfy` | the client authenticators and their configuration |
| `SessionSpec.dfy` | the reference: what a session must answer, recomputed from its history alone, without slots, caches or collectors |
| `DeedSpec.dfy` | the reference for effects: what a session must do outside itself - lookups, breaker traffic, connects, dispatches - recomputed from its history alone |
| `Ledger.dfy` | the state shared by all sessions, as an object with its operations |
| `Backends.dfy` | the backend set: connect-once cells, breaker guard, collectors, as an object proved against the reference |
| `Serving.dfy` | a session served by one thread of control, in imperative form, proved against the reference |
| `Exposure.dfy` | exactly when the breaker's one answer changes what a session says and does |
| `Sessions.dfy`, `Conduct.dfy`, `Stories.dfy` | a session as a machine of atomic steps; what each step keeps of its conversation and of its effects |
| `Daemons.dfy` | any number of sessions under any schedule, and the theorems over whole runs |
| `Replies.dfy`, `Places.dfy` | over whole runs: what clients are told, field by field, and which request each metric, operation and connect belongs to |
| `Isolation.dfy`, `Neighbours.dfy` | what one tenant can learn of the others over whole runs, and a case in which it does |
| `QuietFrames.dfy`, `Outgoing.dfy`, `Keyed.dfy` | over whole runs: frames that leave no mark, mail handed to transports, key refreshes between the sessions' steps |
| `Jwks.dfy`, `Discovery.dfy` | the key cache with its refresh task; the discovery memo |
| `MailPolicy.dfy` | the send budget and what may be handed to the mail transport |
| `MongoUri.dfy`, `BsonJson.dfy`, `CappedRead.dfy` | the connection-string printer, the BSON converter, the capped reads |
| `Deadline.dfy`, `ConnectionCap.dfy` | the execution budget; the capped accept loop |

## How to read it

A session meets the outside world through a `Script`: the frames it will read, what each connect and each
operation would answer if it were asked for, what the token verifier says, and when the writer breaks.
Scripts are arbitrary, so a statement about every script is a statement about every environment. The
breaker is an arbitrary function of everything in the shared log, the target and the clock. A run of the
daemon is a schedule: which session takes its next atomic step, and when. Asking the breaker, attempting a
connect, recording its outcome and counting a rejection are separate steps, so other sessions may come
between any two of them.

The main results, strongest first:

1. Interleaving is invisible (`Daemons.EverySessionKeepsToItsScript`): under every schedule each session
   writes a prefix of the one conversation the history-based reference prescribes for its own script and
   the one answer it got from the breaker. What it does outside itself is likewise a prefix of one
   prescribed sequence of effects, and a finished session has said and done exactly what it would have if
   served alone (`Daemons.InterleavedEqualsAlone`): the conversation and the effects that
   `Serving.Serve`, the imperative form over `Backends.BackendSet`, is proved to produce.
2. Tenants meet at the breaker and nowhere else. A session that is not exposed to it - a condition on its own
   script and configuration - is isolated from everything around it (`Isolation.TenantsAreIsolated`, a
   statement about two runs); for any session, two finished runs agree if and only if it is unexposed or got
   the same answer (`Isolation.TenantsMeetOnlyAtTheBreaker`); and the condition is needed
   (`Neighbours.FailuresAreFeltNextDoor`). Credentials never cross (`Daemons.CredentialsStayWithTheirTenant`,
   about every connect and operation of every run), nor does mail policy (`Outgoing.EveryMessageComplies`).
3. The breaker is obeyed (`Daemons.BreakerIsObeyed`, `Daemons.BreakerCountsAreOrdered`), backends connect
   once (`Daemons.ConnectsAtMostOnce`), drains are histories (`Daemons.DrainsReportHistory`),
   authentication comes first (`Daemons.AuthenticationPrecedesEverything`), rejections are counted
   (`Daemons.RejectionsAreCounted`), every session finishes (`Daemons.EverySessionFinishes`), and nobody is
   let in on a key that was never fetched (`Keyed.NobodyBeforeTheFirstFetch`).
4. What is said is right, read off the requests and the outside world alone: every reply and every opening
   (`Replies.RepliesAreTrue`, `Replies.OpeningsAreTrue`), every metric, operation and connect
   (`Places.DrainsTellTheCalls`, `Places.OperationsAreTheCalls`, `Places.AttemptsAreFirstCalls`), every message
   (`Outgoing.EveryMessageComplies`), every acceptance (`Keyed.AcceptedIffTheKeysSaySo`).
5. The caches, printers, converters, caps and budgets agree with uncached, inverse or pure forms.

Three statements come out sharper than the code's comments suggest:

- Tenants are isolated in what the table decides, not in what the breaker decides: it is one per daemon and
  keyed by host and port, so a failed connect of one tenant can turn another tenant's first db call on the same
  server into `DB_CIRCUIT_OPEN` (`Neighbours.TenantsShareTheBreaker`).
- The running totals of rejections are distinct if and only if fewer than 2^64 clients have been rejected:
  the counter wraps while the reported total saturates (`Daemons.TotalsAreDistinctBelowWord`).
- A connection string determines its configuration for every host, however odd, when it is read from the
  right (`MongoUri.PrintAlikeMeansAlike`). Split from the left at the delimiters of RFC 3986, it gives back the
  host if and only if the host is free of `/ ? #`, is wholly in brackets if it starts with one and free of
  colons if not, and holds no `@` unless there are credentials (`MongoUri.LeftReadingIffCleanHost`).

The shape of `Init` follows the code (one optional name per kind), not `docs/go-rewrite-wire-contract.md`,
which describes a single list of names; that document also says a rejected client's stream is closed,
where the code answers `InitError`.

## Model

| member | source | states |
|---|---|---|
| `Resources.Clamp` | crates/fabric-backends/src/resources.rs:141-152 | with a ceiling the db statement timeout ends in 1..ceiling, kept if already there and the ceiling otherwise; no other field or kind changes |
| `Resources.ResolveIsFaithful` | crates/fabric-backends/src/resources.rs:199-287 | resolution succeeds exactly when every named kind resolves among the tenant's visible entries, with exactly those configurations; otherwise it reports the first failing kind in the order db, mongo, mail, redis, amq, auth |
| `Resources.FaithfulIsUnique` | crates/fabric-backends/src/resources.rs:199-248 | that judgement determines the outcome completely |
| `Resources.ResolveSeesOnlyItsTenant` | crates/fabric-backends/src/resources.rs:250-287 | two tables that agree on the session tenant's entries resolve alike, errors included |
| `Resources.ForeignNamesAreAbsent` | crates/fabric-backends/src/resources.rs:275-279 | adding or deleting entries of other tenants changes no resolution |
| `ClientAuth.BuiltSecretAcceptsOnlySecrets` | crates/fabricd/src/auth.rs:114-130 | a configured shared-secret authenticator accepts exactly the configured non-empty secrets, never the empty token |
| `ClientAuth.LetInIsAuthenticated` | crates/fabricd/src/auth.rs:190-223 | each provider accepts exactly whom it should - everyone, the holders of a secret, tokens the verifier finds good - and a rejection carries its code and reason |
| `ClientAuth.ModesYieldTheirProviders` | crates/fabricd/src/auth.rs:114-157 | each mode yields its provider with the configured settings, and fails exactly when a required one is missing or empty |
| `SessionSpec.LaterDrainsExtendEarlierOnes` | crates/fabric-backends/src/db.rs:293-309 | collected metrics only grow: an earlier drain is a prefix of a later one |
| `SessionSpec.QuietStretchesDoNotMeter` | crates/fabric-backends/src/backendset.rs:106-115 | drains are equal when no call reached a backend in between |
| `SessionSpec.ConnectionIsDecidedOnce` | crates/fabric-backends/src/backendset.rs:349-362 | the first call of a kind fixes the client or the error for the rest of the session |
| `SessionSpec.FailedConnectIsReturnedForever` | crates/fabric-backends/src/backendset.rs:355-361 | after a failed connect every call of the kind gets that same error and none reaches the driver |
| `SessionSpec.MailBudgetHolds` | crates/fabric-backends/src/mail.rs:266-286 | with a non-zero `max_sends` no more than that many mail operations are carried out in any session |
| `SessionSpec.NotConfiguredExactlyWhenUnnamed` | crates/fabricd/src/main.rs:533-563 | after `Ack` a call is answered "not configured" if and only if the `Init` named nothing of its kind |
| `SessionSpec.TraceSeesOnlyItsTenant` | crates/fabricd/src/main.rs:485-571 | a whole conversation depends on the table only through the tenant's own entries |
| `Ledger.TargetNamesOneEndpoint` | crates/fabric-backends/src/db.rs:394-394 | two db resources share a breaker key if and only if host and port agree, for all hosts |
| `Backends.OperateAgrees` | crates/fabric-backends/src/backendset.rs:229-296 | an operation on cached state answers, meters and leaves the cells exactly as the history prescribes |
| `Backends.DrainIsHistory` | crates/fabric-backends/src/backendset.rs:106-115 | the collectors hold, per capability and in order, the history of operations that reached dispatch |
| `Backends.BackendSet.constructor` | crates/fabric-backends/src/backendset.rs:80-101 | each resolved configuration becomes an untried slot of its own kind, amq at once live |
| `Backends.BackendSet.ConnectThroughBreaker` | crates/fabric-backends/src/db.rs:386-401 | without a breaker one attempt; with one: a refusal and nothing more, or an allowed attempt and one record of its true outcome |
| `Backends.BackendSet.Backend` | crates/fabric-backends/src/backendset.rs:349-362 | the connection is settled with exactly the effects the history prescribes: one connect on first use, none ever after |
| `Backends.BackendSet.Dispatch` | crates/fabric-backends/src/backendset.rs:229-296 | unpacks, checks the budget, dispatches to the live client and records one metric, or does none of it |
| `Backends.BackendSet.Call` | crates/fabric-backends/src/backendset.rs:299-316 | whatever the cells hold, the result and the effects are those the history prescribes, and agreement is kept |
| `Backends.BackendSet.DrainMetrics` | crates/fabric-backends/src/backendset.rs:106-115 | the reply equals the history of operations |
| `Serving.Respond` | crates/fabricd/src/main.rs:560-569 | each request of an open session gets the prescribed answer and has the prescribed effects |
| `Serving.Converse` | crates/fabricd/src/main.rs:557-571 | the loop writes `Ack` and the prescribed answers in order, up to where the writer breaks, and has the effects of the requests served by then |
| `Serving.Serve` | crates/fabricd/src/main.rs:485-571 | a session writes exactly its prescribed conversation and has exactly its prescribed effects, in order, hears only the breaker's own decisions, and the counter moves exactly on a rejection |
| `Serving.AnswerIsThePolicys` | crates/fabric-backends/src/db.rs:394-397 | the answer on which an exposed session's conversation hinges is the policy's decision on the shared log at the moment of asking, about the session's own endpoint |
| `Sessions.StepKeepsFaith` | crates/fabricd/src/main.rs:485-571 | every atomic step keeps a session on the conversation prescribed under any breaker answer still possible |
| `Conduct.StepConducts` | crates/fabricd/src/main.rs:485-571 | every atomic step keeps the session's log what its history prescribes up to that point, in the middle of a connect included |
| `Conduct.ConductIsPrescribed` | crates/fabricd/src/main.rs:485-571 | what a session has done is a prefix of its prescribed effects, and at the end all of those of the requests served |
| `Stories.OnScriptKeepsStory` | crates/fabricd/src/main.rs:509-569 | every atomic step keeps the story of a session's effects: judged first, connected once, breaker asked, obeyed and told once |
| `Daemons.EverySessionKeepsToItsScript` | crates/fabricd/src/main.rs:485-571 | for every interleaving, what a session wrote is a prefix of its own sequential conversation, and all of it once the session is done and its writer held |
| `Daemons.InterleavedEqualsAlone` | crates/fabricd/src/main.rs:485-571 | for every interleaving a session's effects are a prefix of its own sequential ones, and a finished session has written and done exactly what `Serve` alone would |
| `Exposure.TraceHingesOnTheBreaker` | crates/fabric-backends/src/db.rs:386-401 | the prescribed conversation is the same under either breaker answer if and only if the session is not exposed: no breaker, not opened, no db wired, or no request calls the db |
| `Exposure.ConversationHingesOnTheBreaker` | crates/fabric-backends/src/db.rs:386-401 | the same equivalence for what gets through a writer that may break, counting only the answers that do |
| `Exposure.EffectsHingeOnTheBreaker` | crates/fabric-backends/src/db.rs:386-401 | the same equivalence for the effects of the requests served |
| `Isolation.TenantsAreIsolated` | crates/fabricd/src/main.rs:529-557 | two daemons that agree on a tenant's entries, with any other entries, sessions, schedules, clocks and breaker policies, hold the same conversation with an unexposed session of that tenant, for any writer, and do the same for it once it is accepted |
| `Isolation.TenantsMeetOnlyAtTheBreaker` | crates/fabric-backends/src/db.rs:394-399 | for any session, two finished runs give the same conversation if and only if it is not exposed or was given the same breaker answer; likewise for its effects |
| `Neighbours.FailuresAreFeltNextDoor` | crates/fabric-backends/src/db.rs:394-399 | the condition cannot be dropped: under a breaker that opens after a failure, any exposed session's finished conversation changes when a neighbour's connect to the same endpoint fails first |
| `Neighbours.TenantsShareTheBreaker` | crates/fabric-backends/src/db.rs:394-399 | two concrete runs, same table and policy, in which another tenant's failed connect changes what a session is told |
| `Daemons.CredentialsStayWithTheirTenant` | crates/fabricd/src/main.rs:533-557 | every connect attempt and every operation of every run, amq included, uses an entry of the session's own tenant that its `Init` named, after acceptance, with a db statement timeout in 1..ceiling |
| `Daemons.DrainsReportHistory` | crates/fabricd/src/main.rs:563-563 | in every run every drain reply is the history of operations so far, and later drains extend earlier ones |
| `Replies.NamesOfKinds` | crates/fabric-backends/src/backendset.rs:300-315 | the six names under which calls reach the six kinds |
| `Replies.RepliesAreTrue` | crates/fabric-backends/src/backendset.rs:178-316 | in every run every reply to a call is the driver's json, or the fault's own source, code, message and owner, or names what stood in the way - kind not wired, breaker refusal, failed first connect, bad payload, spent budget - judged by the places of the calls among the requests |
| `Replies.UnknownNamesAreTold` | crates/fabric-backends/src/backendset.rs:308-314 | in every run a call under any other name is told so |
| `Replies.OpeningsAreTrue` | crates/fabricd/src/main.rs:496-558 | in every run the first frame written is `Ack` when the client is let in and every name resolves, and otherwise carries the code and message of what was wrong first |
| `Replies.OnlyTheRightAreLetIn` | crates/fabricd/src/main.rs:509-527 | in every run the first thing a session does is to be judged, and the judgement is right for its provider |
| `Places.DrainsTellTheCalls` | crates/fabric-backends/src/db.rs:293-309 | in every run, for every drain reply and kind, the k-th metric tells the k-th call of the kind that got through, field by field: action, duration, the driver's figures and flag, or zeros exactly on failure |
| `Places.OperationsAreTheCalls` | crates/fabric-backends/src/backendset.rs:229-296 | in every run the k-th operation of a kind handed to a driver has the configuration, client, action and unpacked arguments of the k-th such call |
| `Places.AttemptsAreFirstCalls` | crates/fabric-backends/src/backendset.rs:349-362 | in every run every connect attempt is made by the kind's first call, under the kind's configuration, with the outcome that call met |
| `Daemons.EverySessionFinishes` | crates/fabricd/src/main.rs:485-571 | under every schedule a session given enough turns is done: no state is stuck |
| `Daemons.ResponsesAnswerRequests` | crates/fabricd/src/main.rs:496-570 | responses written equal frames read or are one fewer; `Ack` is first exactly in opened sessions; others write at most one frame and read no second |
| `QuietFrames.ExtraFramesChangeNothing` | crates/fabricd/src/main.rs:562-566 | in any two finished runs a session with a drain or a second `Init` and the same session without that frame say the same but for that one answer and do the same; a second `Init` is answered with a protocol error |
| `Daemons.DoneIsFinal` | crates/fabricd/src/main.rs:504-570 | under every later schedule a finished session keeps its state, writes nothing more and does nothing more |
| `Daemons.AuthenticationPrecedesEverything` | crates/fabricd/src/main.rs:509-533 | a rejected session is judged and counted and does nothing else; in others acceptance precedes the lookup and the lookup everything else |
| `Daemons.RejectionsAreCounted` | crates/fabricd/src/main.rs:127-134 | in every run the counter is the number of rejections modulo 2^64 and the i-th was told its own count |
| `Daemons.RejectionsAreSessions` | crates/fabricd/src/main.rs:511-527 | rejections counted are exactly distinct sessions whose token was not accepted |
| `Daemons.TotalsAreDistinctBelowWord` | crates/fabricd/src/main.rs:127-134 | the totals are 1..n below 2^64, and pairwise distinct if and only if n is below 2^64 |
| `Daemons.ConnectsAtMostOnce` | crates/fabric-backends/src/backendset.rs:349-457 | in every run each session attempts each kind at most once and dispatches only to the client that attempt won |
| `Daemons.AnswersComeFromTheBreaker` | crates/fabric-backends/src/db.rs:394-397 | every answer in the log is the breaker's own on what it had heard by then |
| `Daemons.BreakerIsObeyed` | crates/fabric-backends/src/db.rs:386-401 | in every run a session's dealings with the breaker are nothing, a refused question, or question, attempt on that target and one true record, cut short only while connecting |
| `Daemons.BreakerCountsAreOrdered` | crates/fabric-backends/src/db.rs:386-401 | over all sessions and for every target records are at most attempts, attempts at most positive answers, one of each per session |
| `Jwks.BuildKeyMap` | crates/fabric-backends/src/sa_token.rs:322-337 | the map holds for each key id its last usable entry and nothing else |
| `Jwks.LastUsableByPlace` | crates/fabric-backends/src/sa_token.rs:322-337 | the key kept for a key id is that of the greatest usable place in the set, and none if there is none |
| `Jwks.Verifier.Refresh` | crates/fabric-backends/src/sa_token.rs:259-275 | a success swaps the cache, a failure keeps it, and a loaded cache stays loaded |
| `Jwks.Verifier.RefreshLoop` | crates/fabric-backends/src/sa_token.rs:252-276 | any number of rounds keeps the cache a mirror of the last successful fetch |
| `Jwks.Verifier.Verify` | crates/fabric-backends/src/sa_token.rs:181-194 | the verdict from the cache is the one prescribed by the events so far, each error case included |
| `Jwks.RejectsAllBeforeTheFirstFetch` | crates/fabric-backends/src/sa_token.rs:186-190 | until a fetch succeeds every token is rejected |
| `Jwks.FailuresKeepTheKeys` | crates/fabric-backends/src/sa_token.rs:270-272 | failed refreshes never change what tokens are judged by |
| `Jwks.AcceptanceIsAgainstTheLastFetch` | crates/fabric-backends/src/sa_token.rs:181-194 | acceptance holds if and only if the last usable entry of the last successful fetch validates the token |
| `Jwks.AcceptedIffValid` | crates/fabric-backends/src/sa_token.rs:181-194 | a token is accepted if and only if it is good under the key at the greatest usable place of the last successful fetch |
| `Jwks.RejectionsSayWhy` | crates/fabric-backends/src/sa_token.rs:181-194 | each rejection names its reason: bad header, no key id, nothing loaded, unknown key id, or the validation error |
| `Keyed.KeyedRunsAreRuns` | crates/fabricd/src/auth.rs:215-223 | every run in which key refreshes interleave with the sessions is a run of the daemon under the verdicts the keys gave, so all theorems over runs hold of it |
| `Keyed.AcceptedIffTheKeysSaySo` | crates/fabricd/src/auth.rs:215-223 | in every such run a judged service-account session is accepted if and only if it presented a token and the last usable key, under its key id, of the last successful fetch at that moment is good for it |
| `Keyed.NobodyBeforeTheFirstFetch` | crates/fabric-backends/src/sa_token.rs:186-190 | as long as no fetch has succeeded no service-account session of any run is accepted: it is judged and counted and nothing else happens |
| `Discovery.AuthState.Discover` | crates/fabric-backends/src/auth.rs:348-359 | the memo is returned if present; otherwise one fetch, remembered only if it succeeds |
| `Discovery.AuthState.Resolve` | crates/fabric-backends/src/auth.rs:279-345 | every endpoint comes from an override or the run's first document, and the network is used exactly when neither exists |
| `Discovery.PrescribedIsRight` | crates/fabric-backends/src/auth.rs:322-381 | in any run a resolution yields the override of what is wanted, or else that very field of the first document obtained, and fails exactly when the field is absent or empty, nothing was obtained, or introspection is disabled |
| `Discovery.AtMostOneDiscoverySucceeds` | crates/fabric-backends/src/auth.rs:348-359 | at most one discovery succeeds over any run |
| `Discovery.MemoIsForGood` | crates/fabric-backends/src/auth.rs:348-359 | once there is a document every later resolution reads it |
| `Discovery.StableIssuerHidesTheMemo` | crates/fabric-backends/src/auth.rs:322-381 | with an issuer that serves one document, memoized and uncached resolution agree on every call |
| `Discovery.OverridesNeverFetch` | crates/fabric-backends/src/auth.rs:322-345 | with overrides nothing is ever fetched or memoized |
| `MailPolicy.EnforceDomains` | crates/fabric-backends/src/mail.rs:375-389 | passes if and only if the list is empty or every recipient parses and has a listed domain, case folded |
| `MailPolicy.BuildMessage` | crates/fabric-backends/src/mail.rs:401-449 | succeeds exactly when every address parses and the body assembles, with the message the payload stands for |
| `MailPolicy.MessageStandsFor` | crates/fabric-backends/src/mail.rs:401-449 | the message has each recipient in its own header and place, the payload's sender or the default, a reply address exactly when given, the subject, and the body the two texts call for |
| `MailPolicy.OneMessageStands` | crates/fabric-backends/src/mail.rs:401-449 | these fields determine the message |
| `MailPolicy.HandedIffWithinPolicy` | crates/fabric-backends/src/mail.rs:334-398 | something is handed over if and only if the action, the payload, the number of recipients, every domain and the message itself are in order |
| `MailPolicy.Prepare` | crates/fabric-backends/src/mail.rs:334-355 | validation and building succeed exactly when the operation is within policy |
| `MailPolicy.DoSend` | crates/fabric-backends/src/mail.rs:334-370 | a message reaches the transport if and only if the call is within policy, and it is the one the payload stands for |
| `MailPolicy.HandedIsCompliant` | crates/fabric-backends/src/mail.rs:338-350 | what is handed over stands for the payload field by field, has 1..`max_recipients` recipients, all in listed domains if there is a list |
| `MailPolicy.MailBackend.Call` | crates/fabric-backends/src/mail.rs:266-286 | a spent budget refuses and changes nothing; otherwise one metric, and a message exactly when the call is within policy |
| `MailPolicy.MailBackend.Session` | crates/fabric-backends/src/mail.rs:266-286 | over a session exactly min(calls, budget) calls pass, and everything handed over complies |
| `Outgoing.EveryMessageComplies` | crates/fabric-backends/src/mail.rs:266-449 | in every run every message any session hands to a transport stands, field by field, for a payload of one of its own send calls and complies with the mail resource its own tenant has under the name its `Init` gave |
| `Outgoing.MailStaysWithinBudget` | crates/fabric-backends/src/mail.rs:266-286 | in every run no session carries out more mail operations than its resource's budget |
| `MongoUri.DecodeInvertsEncode` | crates/fabric-backends/src/mongo.rs:329-332 | percent-encoding is reversible on all byte strings |
| `MongoUri.EncodesByteByByte` | crates/fabric-backends/src/mongo.rs:329-332 | letters and digits stand for themselves, any other byte becomes a percent sign and two hexadecimal digits |
| `MongoUri.EncodedIsClean` | crates/fabric-backends/src/mongo.rs:329-332 | an encoded component holds no delimiter |
| `MongoUri.BuildUri` | crates/fabric-backends/src/mongo.rs:300-327 | the pushes yield the print of what the configuration means |
| `MongoUri.ReadInvertsPrint` | crates/fabric-backends/src/mongo.rs:300-327 | a reader recovers user, password, host, port, auth source, TLS and CA file from every print, for all hosts |
| `MongoUri.ConfigurationIsRecovered` | crates/fabric-backends/src/mongo.rs:300-327 | every field a configuration says is read back, and password, auth source and CA file exactly when they have a meaning |
| `MongoUri.OptionsAreRead` | crates/fabric-backends/src/mongo.rs:314-326 | any reader of query strings sees exactly the options meant, by name and value |
| `MongoUri.AuthorityIsRead` | crates/fabric-backends/src/mongo.rs:300-313 | encoded user and password before an at sign if there is a user, then the host as it is |
| `MongoUri.PrintAlikeMeansAlike` | crates/fabric-backends/src/mongo.rs:300-327 | two configurations print alike if and only if they agree after dropping password and auth source without a username and the CA file without TLS |
| `MongoUri.LeftReadingIffCleanHost` | crates/fabric-backends/src/mongo.rs:308-313 | splitting the authority from the left at the delimiters of section 3.2 of RFC 3986, bracketed hosts included, gives back userinfo, host and port if and only if the host is clean |
| `MongoUri.SomeHosts` | crates/fabric-backends/src/mongo.rs:310-312 | `[::1]` is read back, `::1` and a host with a slash are not |
| `BsonJson.ConvertValue` | crates/fabric-backends/src/mongo.rs:702-725 | the recursion ends on every finite tree with the specified conversion |
| `BsonJson.ConvertDocument` | crates/fabric-backends/src/mongo.rs:689-695 | field-by-field insertion yields the converted object |
| `BsonJson.StructureIsPreserved` | crates/fabric-backends/src/mongo.rs:689-725 | along every path the JSON tree has a node exactly where the BSON tree has one, and it is its conversion |
| `BsonJson.EveryNodeIsExplained` | crates/fabric-backends/src/mongo.rs:702-725 | at every depth integers are 32-bit, floats finite and unchanged, lengths and key sets kept |
| `BsonJson.EveryValueIsRendered` | crates/fabric-backends/src/mongo.rs:702-725 | at every depth every value of every type is rendered as it should be, scalars included |
| `BsonJson.LongsAreRecoverable` | crates/fabric-backends/src/mongo.rs:713-713 | every 64-bit integer is recovered by reading its string |
| `BsonJson.DistinctLongsNeverCollide` | crates/fabric-backends/src/mongo.rs:713-713 | equal conversions imply equal 64-bit integers in the same place |
| `CappedRead.DrainCursor` | crates/fabric-backends/src/mongo.rs:493-521 | fails exactly with the first error within reach; otherwise the first min(n, max) documents, truncated exactly when n > max, at most max + 1 advances, metric figures as in the reply |
| `CappedRead.RowsAreCapped` | crates/fabric-backends/src/db.rs:527-533 | the row conversion keeps the first min(n, max) rows and flags exactly n > max |
| `CappedRead.CappedReadsAgree` | crates/fabric-backends/src/mongo.rs:493-521 | the cursor loop and the row conversion keep the same items and set the same flag |
| `Deadline.TotalWaitIsWithinBudget` | crates/fabric-backends/src/db.rs:254-271 | for any sequence of operations under a monotone clock the total time in bounded waits is at most the budget |
| `Deadline.NothingWaitsAfterACutOff` | crates/fabric-backends/src/db.rs:367-379 | after one wait is cut off every later one ends at once |
| `Deadline.WaitsAreBoundedByTheRest` | crates/fabric-backends/src/db.rs:254-271 | a wait is held for what it needs or what the budget leaves, whichever is less, and cut off exactly when that is less |
| `Deadline.BudgetIsTight` | crates/fabric-backends/src/mongo.rs:376-383 | an operation that never returns is held for exactly the budget |
| `ConnectionCap.CapHoldsInEveryRun` | crates/fabricd/src/main.rs:430-480 | in every run available plus held permits equal the maximum, handled connections never exceed it, at most one waits, none is lost |
| `ConnectionCap.WaitsOnlyAtTheCap` | crates/fabricd/src/main.rs:436-446 | the waiting connection is admitted by the next acquire if and only if the cap is not reached |
| `ConnectionCap.EndingGivesBack` | crates/fabricd/src/main.rs:442-465 | in every run a failed handshake or a close of a handled connection gives exactly one permit back |
| `ConnectionCap.AcquireTakesOne` | crates/fabricd/src/main.rs:437-445 | an acquire below the cap takes one permit for exactly the connection that waits |
| `ConnectionCap.EndedMeansItEnded` | crates/fabricd/src/main.rs:442-480 | a connection is over exactly when it failed or closed while being handled |

## Left out

- Wire framing and JSON decoding: requests and responses are typed; the three enveloped payloads are unpacked by functions given with the configuration.
- The breaker's own policy (threshold, cool-down, half-open probes): any policy is covered.
- Driver traffic, TLS, SMTP, QUIC handshakes, RSA and claim checks: their outcomes are arbitrary.
- The operation bodies of redis and amq, SQL parameters, mongo filters, and the error classification tables: each is settled by reading one branch.
- Error details and retry hints of `EgressError`; source, code, message and owner are modelled.
- Metric fields of the six capabilities are carried as two figures and a flag; the host of an auth metric is not modelled.
- Connection-string fields are byte strings, one character per byte of their UTF-8 text.
- What a driver answers may be anything, so the model allows answers that a real driver would not give, such as a success for a mail operation that was not handed to the transport.
- The left-to-right reader of connection strings splits at delimiters and does not check the characters in between.
- Panics inside a backend call, and lock poisoning.
- Configuration loading, signals, logging and the metrics endpoint.
- `Resources.Clamp`: the source updates the resolved struct in place; the model returns the updated value.
- The six optional slot fields of the backend set are one map keyed by kind.
- `Serving.Serve`: runs without interference from other sessions; interference is covered by the step machine of `Sessions` and `Daemons`.
- Sessions still running on a QUIC connection after it has closed hold no permit; only connections are counted against the cap.
- `Deadline.TotalWaitIsWithinBudget`: connecting itself is not bounded by the budget, since the deadline is anchored after it.
