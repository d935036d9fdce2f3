# Verification of a test-environment library

This project models the three stateful parts of the repository whose correctness depends on every input
or every interleaving, and proves what they promise.

**Log streaming** (`dockerlog`). `LineSplit` is a byte-at-a-time reference splitter with its own theory.
`LineWriter` is the incremental writer: an array that is appended to and truncated in place, forced cuts
at a maximum length (the chunk taken may be empty), a ghost log of what it emitted. `StreamFrom` is the
restart loop over any number of stream sessions, with the byte counters and the backoff of `Backoff`, on
64-bit values that wrap around. `SupervisorProtocol` is the Start / Cancel / Wait / watchdog protocol: a
step is a mutex-held region, the closing of a channel or the choice a waiting call makes; channel,
context and goroutine of a cycle share one number. `Supervisor` is the object whose methods do these
steps.

**Environment lifecycle** (`env.go`). `EnvProtocol` is the machine: any number of callers of Start and
Stop, tracks side by side, stages in sequence, services side by side within a stage, rollback, teardown
in reverse, hooks. A step is a mutex-held region, one call or return of a service or hook, or one thing a
joining goroutine does. Each run leaves a trace; `EnvTrace` reads it, `EnvInvariant` and `EnvSteps` prove
what every step keeps, `EnvResults` and `EnvProperties` what a run promises, `EnvProgress` that it neither
gets stuck nor goes on for ever, `EnvHooks` when the lifecycle hooks run, `EnvCalls` what callers get and
what services are free to do, `EnvMisuse` what a Stop call out of turn can do. `Env` is the object with the
fields under the mutex.

**Grants** (`services/oidc`). `OidcSpec` holds the decisions of the handlers as functions of a request, a
store and a clock reading. `GrantProtocol` lets handlers interleave between their store operations, over
any number of runs of the server; `GrantInvariant`, `GrantTokens` and `GrantSteps` prove what every step
keeps; `GrantResults` and `GrantLifetimes` what follows for clients. In `Oidc` the stores and the issuer are objects whose
handlers refine the machine step by step: their `Valid()` says that the fields are the present part of a
reachable machine state, so every result about reachable states holds of the object. The requirements
behind it are sections 4.1.2, 4.1.3 and 6 of RFC 6749 and sections 4.1, 4.3 and 4.6 of RFC 7636.

## Hypotheses

- Environment: nobody but Start itself calls Stop while a Start call is bringing services up or running
  its hooks (`EnvProtocol.Disciplined`). Otherwise a service that returns from Start after such a
  Stop indexes the released record of started services and panics; `EnvMisuse.StopCrashesExactly` says
  exactly when that can happen, `EnvResults.StopDuringStartCrashes` is a shortest run.
- Environment: a rolled-back Start is said to be idle at the moment of its own finishStop. Its return to
  the caller comes later in the code, and a competing Start may have been accepted in between.
- An errgroup runs its functions in any interleaving and joins after all of them have returned. It reports
  an error exactly if one of them did.
- Random codes and jtis are fresh, a signature verifies under its own run's key only, configuration is
  fixed while the server runs, no handler is in flight when it stops, and the clock never goes back.
- Configuration of an Env, Supervisor or Issuer is not changed while it runs.

## Where the code differs from what is written about it

- Backoff: the exponential closed form holds for every history of sessions exactly if the base is not
  negative and below 2^62 ns; beyond that, doubling wraps around (`Backoff.ClosedFormExactly`). The bound
  on every wait survives the wrap (`Backoff.WaitBounded`).
- Refresh tokens: the reason `expired` is meant for a refresh token past its lifetime, but the JWT library
  checks `exp`, cut to the second, before the store is asked. At one clock reading an expired token is
  reported as `invalid_signature` and its record stays in the store; `expired` needs the record to expire
  between the two (`GrantResults.ExpiredBranchNeedsDelay`).
- The client check after a refresh is said to be defensive; it never fails, whoever signed the token
  (`GrantResults.ClientCheckIsIdle`).
- Validation accepts every refresh lifetime above zero, but exactly those of a second or more make every
  refresh token usable on arrival (`GrantLifetimes.UsableExactly`).

## Model

| member | source | states |
|---|---|---|
| `LineSplit.FragmentationIndependence` | dockerlog/dockerlog.go:355-411 | however a byte string is cut into writes, pieces and residual buffer are those of the whole string |
| `LineSplit.FeedIsPiecesOfLines` | dockerlog/dockerlog.go:372-411 | the pieces emitted are those of the input's lines cut every M bytes, in order, with the last piece still buffered |
| `LineSplit.LinesExactly` | dockerlog/dockerlog.go:379-416 | the lines are those of the input: none contains LF, and joined with LF they are the input |
| `LineSplit.PiecesShape` | dockerlog/dockerlog.go:380-402 | a newline-free run of n > 0 bytes gives exactly ceil(n/M) pieces that concatenate to it, all but the last of exactly M bytes |
| `LineSplit.ForcedSplit` | dockerlog/dockerlog.go:381-402 | cutting as soon as the buffer is full is the same as cutting when the next byte arrives, even if nothing was taken |
| `LineSplit.LoggedEntriesAreClean` | dockerlog/dockerlog.go:430-438 | no entry is empty, longer than M, contains LF or ends in CR |
| `LineSplit.Conservation` | dockerlog/dockerlog.go:372-438 | all bytes but CR and LF are, in order, in the entries or still in the buffer |
| `LineSplit.ConservationAtEnd` | dockerlog/dockerlog.go:421-430 | once the input has ended, every byte but CR and LF is in an entry, in order |
| `LineWriter.IndexOfLF` | dockerlog/dockerlog.go:379 | finds the first newline, or that there is none |
| `LineWriter.LineWriter.Emit` | dockerlog/dockerlog.go:432-438 | logs the line without its trailing carriage returns, once, at the writer's level, or nothing if none is left |
| `LineWriter.LineWriter.Append` | dockerlog/dockerlog.go:383 | extends the buffer, in the same array whenever that has room |
| `LineWriter.LineWriter.ForceOut` | dockerlog/dockerlog.go:394-402 | fills the buffer to M, emits and empties it; what is left feeds the reference splitter to the same result |
| `LineWriter.LineWriter.EndLine` | dockerlog/dockerlog.go:404-416 | emits buffer and rest up to the newline as one piece of at most M bytes |
| `LineWriter.LineWriter.BufferRest` | dockerlog/dockerlog.go:380-390 | without a newline, cuts while buffer and rest exceed M and buffers what remains |
| `LineWriter.LineWriter.Write` | dockerlog/dockerlog.go:372-419 | terminates, reports all of its input as written, leaves exactly the reference splitter's pieces and buffer for the configured length, or 64 KiB if none is, and adds to the log only what it emitted; at most that many bytes and no LF stay buffered |
| `LineWriter.LineWriter.Flush` | dockerlog/dockerlog.go:421-430 | a pending partial line becomes the last piece |
| `Backoff.CurrentIsClosed` | dockerlog/dockerlog.go:273-322 | after k consecutive fast empty sessions the wait is min(b * 2^k, 10s), and b for k = 0 |
| `Backoff.ClosedFormExactly` | dockerlog/dockerlog.go:315-322 | that holds for all histories exactly if 0 <= b < 2^62 ns |
| `Backoff.WaitBounded` | dockerlog/dockerlog.go:316-322 | no wait exceeds max(b, 10s), even when doubling overflows |
| `StreamFrom.ReadingOfSum` | dockerlog/dockerlog.go:314 | adding wrapped 64-bit counts reads the same as wrapping the sum |
| `StreamFrom.ByteCounter.Write` | dockerlog/dockerlog.go:349-353 | writes through and counts every byte, modulo 2^64 |
| `StreamFrom.Total` | dockerlog/dockerlog.go:314 | the 64-bit sum of both streams' bytes of one session |
| `StreamFrom.FastEmptyExactly` | dockerlog/dockerlog.go:313-315 | a session counts as fast and empty exactly if it was fast and the bytes it delivered are a multiple of 2^64; below 2^64 bytes, exactly if there were none |
| `StreamFrom.Sink.CopyFrame` | dockerlog/dockerlog.go:295-297 | a frame reaches the writer of its own stream and no other |
| `StreamFrom.Sink.Copy` | dockerlog/dockerlog.go:292-298 | a session's frames feed each writer that stream's bytes, and the counters read their total |
| `StreamFrom.NextBackoff` | dockerlog/dockerlog.go:308-322 | doubles with a cap after a fast session with no bytes, and resets otherwise |
| `StreamFrom.WaitsAreClosed` | dockerlog/dockerlog.go:308-337 | the k-th wait of a run is b, or min(b * 2^n, 10s) after n fast empty sessions in a row, for 0 <= b < 2^62 ns |
| `StreamFrom.WaitsExactly` | dockerlog/dockerlog.go:308-337 | after exactly n fast sessions without a byte in a row the wait is the base for n = 0 and else min(b * 2^n, 10s); fast is below 100 ms |
| `StreamFrom.WaitsCounted` | dockerlog/dockerlog.go:300-337 | one wait after every session reached but a last one that failed |
| `StreamFrom.Turn` | dockerlog/dockerlog.go:276-338 | one turn delivers the session's bytes, logs its notice, and goes on exactly if it was opened, came to a clean end of file and was not cancelled in its wait |
| `StreamFrom.StreamFrom` | dockerlog/dockerlog.go:255-339 | goes through the sessions up to the first that does not open, breaks off or is cancelled in its wait; the log grows by an interleaving of exactly the reference entries of both streams, final partial lines included, and the notices; the waits are in closed form |
| `StreamFrom.RestartTransparency` | dockerlog/dockerlog.go:255-339 | per level, the container entries are the reference splitter's on that stream's bytes over all sessions |
| `StreamFrom.NothingIsLost` | dockerlog/dockerlog.go:255-339 | if every session but the last ends cleanly, every byte of every session but CR and LF is logged, in order, at its stream's level, cut at 64 KiB |
| `StreamFrom.ReachedExactly` | dockerlog/dockerlog.go:284-337 | a session is reached exactly if every earlier one was opened, ended cleanly and was not cancelled in its wait, however short or empty it was |
| `StreamFrom.NoticesExactly` | dockerlog/dockerlog.go:284-331 | a restart message after every clean end, and a warning exactly if the last session failed under a live context, saying how |
| `StreamFrom.BytesOfFrames` | dockerlog/dockerlog.go:295-297 | the bytes of a stream are those of its frames put together |
| `StreamFrom.BytesOfSessions` | dockerlog/dockerlog.go:263-268 | the bytes of a stream over several sessions are those of each put together |
| `SupervisorProtocol.SingleStreamer` | dockerlog/dockerlog.go:95-154 | at most one streaming goroutine is alive and it is the fields' own; Running() is true and Start a no-op exactly when there is one |
| `SupervisorProtocol.CancelCancels` | dockerlog/dockerlog.go:156-166 | after Cancel the current cycle's context is cancelled and its cancel function used up, and nothing else has changed |
| `SupervisorProtocol.StartOpens` | dockerlog/dockerlog.go:109-154 | unless a goroutine is alive, Start makes a live cycle current with the logger, deadline and backoff it was given, or five seconds and half a second |
| `SupervisorProtocol.WaitJoins` | dockerlog/dockerlog.go:176-185 | Wait joins the current cycle with its deadline and logger, or returns at once if there is none |
| `SupervisorProtocol.TimeoutWarns` | dockerlog/dockerlog.go:190-205 | a timed-out Wait warns once if its cycle has a logger, leaves a watchdog, and touches no field |
| `SupervisorProtocol.NoLeakedContext` | dockerlog/dockerlog.go:111-166 | past cycles are cancelled; the current one has a cancel function exactly while not cancelled; the fields are reset together |
| `SupervisorProtocol.WaitHonoursItsCycle` | dockerlog/dockerlog.go:176-206 | Wait acts on the deadline and logger settled at Start |
| `SupervisorProtocol.WarningsHonourTheirCycle` | dockerlog/dockerlog.go:190-199 | every warning went to one cycle's logger and names that cycle's deadline |
| `SupervisorProtocol.NoStaleClear` | dockerlog/dockerlog.go:208-226 | between any two moments at which a cycle is current, its goroutine alive or not, nobody changes its fields, except that Cancel uses up its cancel function |
| `SupervisorProtocol.ClearedExactlyBy` | dockerlog/dockerlog.go:111-127 | exactly the steps that take a current cycle out of the fields: its goroutine has exited, and it is a Start, a Wait call that joined it, or its own watchdog |
| `SupervisorProtocol.AliveKeepsFields` | dockerlog/dockerlog.go:213-218 | until its goroutine exits a cycle stays current and keeps its fields |
| `SupervisorProtocol.ReusableAfterTimeout` | dockerlog/dockerlog.go:168-206 | after a timed-out Wait a watchdog is there to clear the cycle once its goroutine has exited, for good |
| `SupervisorProtocol.StepKeeps` | dockerlog/dockerlog.go:95-226 | every step keeps the protocol's invariant |
| `Supervisor.Supervisor.IsRunning` | dockerlog/dockerlog.go:95-107 | tells whether the current cycle's channel is open |
| `Supervisor.Supervisor.Start` | dockerlog/dockerlog.go:111-154 | retires a finished cycle and opens a new one with what it was given, or does nothing if one is alive; the protocol's step |
| `Supervisor.Supervisor.Cancel` | dockerlog/dockerlog.go:159-166 | cancels the context the fields hold, uses up the cancel function and leaves the other fields; the protocol's step |
| `Supervisor.Supervisor.WaitBegin` | dockerlog/dockerlog.go:176-185 | takes the current cycle, its deadline and logger along; the protocol's step |
| `Supervisor.Supervisor.WaitDrained` | dockerlog/dockerlog.go:187-189 | exactly the protocol's step |
| `Supervisor.Supervisor.WaitTimedOut` | dockerlog/dockerlog.go:190-205 | warns with the deadline taken along and leaves a watchdog; the protocol's step |
| `Supervisor.Supervisor.WatchdogFires` | dockerlog/dockerlog.go:201-204 | exactly the protocol's step |
| `Supervisor.Supervisor.ClearCycleState` | dockerlog/dockerlog.go:213-226 | clears all four fields if they still belong to the given channel, and nothing otherwise |
| `EnvSteps.StepKeeps` | env.go:149-315 | every step of every caller, track, service and hook keeps the machine's invariant |
| `EnvSteps.CubePublish` | env.go:204-209 | recording a service keeps the record exact: every started service is in it once, in its own track and stage, and nothing else is |
| `EnvResults.RunsEndExactly` | env.go:149-202 | in every run that is over, a service was stopped exactly once if its Start returned nil and never otherwise, none is left in Start or Stop, one Stop won, every AfterStop hook ran once, and Start failed exactly if a service or an AfterStart hook did |
| `EnvHooks.StartRunsItsHooks` | env.go:164-172 | when Start reports success, all AfterStart hooks have run, once each, in order, all without error, and none runs after |
| `EnvHooks.HooksOfFinishedRun` | env.go:317-331 | in a finished run the AfterStart calls are all of the hooks if Start reported no error; otherwise none, or the first few in order, of which exactly the last failed |
| `EnvHooks.HooksOutsideLifetimes` | env.go:134-172 | AfterStart hooks run only when every service is up, AfterStop hooks only when every started service is down |
| `EnvCalls.StartCall` | env.go:211-232 | a Start call is accepted exactly if the environment is idle and names are unique, and then begins a fresh run; else nothing changes |
| `EnvCalls.StopCall` | env.go:234-271 | a Stop call on a running environment begins a teardown of exactly the services that are up; on an idle or stopping one it changes nothing |
| `EnvCalls.SideBySide` | env.go:134-202 | services of a stage are called side by side, up and down, whatever the rest of the stage and the other tracks do |
| `EnvCalls.TracksMoveAlone` | env.go:175-202 | a track goes on by itself as soon as its own stage is up, has failed or is down |
| `EnvResults.ErrorMeansIdle` | env.go:160-171 | at the moment a rolled-back Start ends its teardown the environment is idle and fully reset, and the run's last word is the error |
| `EnvResults.NeverCrashes` | env.go:31-32 | properties are nil exactly when idle; every recordStarted index is in bounds and every merge goes into a live map |
| `EnvResults.StopDuringStartCrashes` | env.go:238-271 | a shortest run in which a Stop by another caller during Start ends before a service returns from Start, which then panics |
| `EnvMisuse.StopCrashesExactly` | env.go:177-209 | for every configuration and reachable state: a Stop call can make a service's return from Start panic later on exactly if a service is in its Start or can still be called, and then the call breaks the discipline |
| `EnvResults.BalancedTeardown` | env.go:307-351 | at every idle state each accepted Start has had one teardown, and each hook's AfterStop ran as often as Start was accepted |
| `EnvResults.NestedLifetimes` | env.go:177-202 | in a track, a Start call comes after all earlier-stage Starts returned nil, and a Stop call after all later-stage Stops returned |
| `EnvProgress.NeverStuck` | env.go:149-315 | while a Start or Stop call is under way, the engine, a service or a hook can take a step: no interleaving deadlocks |
| `EnvProgress.OnlySoManySteps` | env.go:149-315 | whatever callers do, the steps the engine, its services and hooks take before the environment is idle again are bounded by the work left |
| `EnvProgress.StartEnds` | env.go:149-315 | from an accepted Start to the end of its teardown: at most four steps a service, two a stage, one a track, two a hook, and six |
| `EnvProperties.LatestStageWins` | env.go:188-194 | for a key shared only between stages of one track, the latest stage that publishes it decides |
| `EnvProperties.KeysArePublished` | env.go:188-192 | a key is there exactly if a started service published it |
| `EnvProperties.EarlierStagesAreVisible` | api/handle.go:12-15 | a service reading properties in its Start sees every key of earlier stages of its track, and for settled keys the right value |
| `EnvProperties.VisibleKeysGrow` | env.go:125-132 | during a run the visible keys only grow |
| `EnvProperties.Confluence` | env.go:183-194 | runs in which the services published the same end with the same map under every interleaving, if keys are settled |
| `EnvProperties.OrderMattersExactly` | env.go:188-193 | for two services in their Start at once, the order of publishing matters exactly if they publish different values for a common key |
| `EnvProperties.StartIsDeterministic` | env.go:164-172 | two successful Starts whose services published the same return the same snapshot |
| `EnvProperties.DisjointKeysGiveUnion` | env.go:164-172 | with disjoint keys the snapshot is exactly the union of what was published |
| `Env.ValidateServiceNames` | env.go:359-374 | finds nothing exactly if no name stands at two places, and else reports a name that does |
| `Env.Merge` | env.go:189-191 | writing entries one by one, in any order, is the map override |
| `Env.Env.BeginStart` | env.go:215-232 | accepts exactly if idle and names are unique; then fresh state of the configuration's shape |
| `Env.Env.Publish` | env.go:188-193 | merges a service's properties and records it as started in its own stage |
| `Env.Env.Commit` | env.go:164-167 | running, with a snapshot of all properties |
| `Env.Env.BeginStop` | env.go:255-271 | one caller gets past, with an exact copy of the started services |
| `Env.Env.FinishStop` | env.go:309-315 | back to the state of a new environment |
| `Env.Env.Properties` | env.go:125-132 | the current properties, or the empty map when idle |
| `OidcSpec.OfflineExactly` | services/oidc/refresh.go:181-190 | splitting at white space finds offline_access exactly if it stands in the scope on its own |
| `OidcSpec.PkceExactly` | services/oidc/token.go:224-252 | a verifier passes exactly if it is 43 to 128 unreserved characters whose S256 image is the challenge |
| `OidcSpec.CodeRoundTrip` | services/oidc/codes.go:39-80 | an issued code gives back exactly its record, until its expiry and with its redirect URI, and then never again; no other code notices |
| `GrantSteps.StepKeeps` | services/oidc/token.go:109-213 | every store operation and handler stretch, of any handler and of Start and Stop, keeps the machine's invariant and only adds to its history |
| `GrantResults.LinearGrant` | services/oidc/refresh.go:38-101 | per authorization, unredeemed code, exchanges in flight and unrotated refresh tokens are at most one, over all of history |
| `GrantResults.StoresAreHeld` | services/oidc/codes.go:40-51 | everything live in the stores is part of that count |
| `GrantResults.RotationNeverForks` | services/oidc/refresh.go:111-138 | every refresh token was bought with its own grant's spent code or refresh token, and nothing buys twice |
| `GrantResults.SpentAtMostOnce` | services/oidc/codes.go:62-80 | over all runs no code and no refresh token gets past consume twice |
| `GrantResults.CodeAcceptedExactly` | services/oidc/codes.go:53-80 | a code is accepted exactly if this run issued it, it was not accepted before, has not expired and the redirect URI matches; with the record it was issued for |
| `GrantResults.MismatchCostsNothing` | services/oidc/codes.go:73-77 | a wrong redirect URI changes nothing |
| `GrantResults.FailedPkceBurns` | services/oidc/token.go:121-139 | a code whose PKCE check failed is never accepted again and no token is ever minted for it |
| `GrantResults.Provenance` | services/oidc/token.go:144-210 | every token minted through a code and any chain of refreshes carries the subject one accepted /authorize request asked for (sub, else subject, else the default), its audience and scope, with issuer and times of its minting, and its challenge was answered; access audiences are in the allow-list |
| `GrantResults.ClientTokens` | services/oidc/token.go:254-298 | tokens without a grant are access tokens in the client's own name for an allowed audience |
| `GrantResults.ClientTokenSaysWhatWasAsked` | services/oidc/token.go:265-297 | an admitted client credentials request for an allowed audience mints one token with that audience and the scope asked for, and any other nothing |
| `GrantResults.StrangersGetNothing` | services/oidc/token.go:50-97 | with credentials that are not exactly the client's, given exactly one way, no store changes, no exchange begins and nothing is minted |
| `GrantResults.ClientCheckIsIdle` | services/oidc/refresh.go:116-123 | every accepted refresh record has the issuer's client and offers offline access |
| `GrantResults.RefreshAcceptedExactly` | services/oidc/refresh.go:65-101 | a minted refresh token is accepted exactly if minted in this run, not rotated, and not expired to the second when parsed nor since |
| `GrantResults.AnyTokenAcceptedExactly` | services/oidc/refresh.go:68-101 | which tokens a refresh accepts at all, whoever signed them: this run's key and refresh audience, time claims met, naming a refresh token this run issued, not rotated, not expired |
| `GrantResults.RotationIsUsable` | services/oidc/refresh.go:125-138 | rotation hands out a refresh token of the same grant, usable on arrival exactly if its expiry, cut to the second, lies ahead |
| `GrantLifetimes.UsableExactly` | services/oidc/refresh.go:43-55 | every refresh token handed out is usable on arrival at every clock reading exactly if the configured lifetime is a second or more; already of rotations this is so |
| `GrantLifetimes.RotationCanFail` | services/oidc/config.go:34-36 | for every validated configuration with a shorter lifetime, a reachable rotation that hands out a token expired on arrival |
| `GrantResults.ExpiredBranchNeedsDelay` | services/oidc/refresh.go:95-98 | exactly when the expired branch is taken; at one clock reading an expired token is a bad signature and its record stays |
| `GrantResults.TokenSeparation` | services/oidc/refresh.go:82-94 | no access or id token the endpoint minted is ever accepted as a refresh token |
| `GrantResults.StopRevokesCodes` | services/oidc/server.go:57-71 | no code issued before a Stop is accepted in a later run |
| `GrantResults.StopRevokesRefreshes` | services/oidc/server.go:21-28 | no token naming a refresh record of before a Stop is accepted in a later run |
| `GrantResults.StoredCodesAreGranted` | services/oidc/authorize.go:30-91 | every live code is for the issuer's client, a registered redirect URI and an allowed audience or none, its challenge is S256, and it lives exactly the configured time |
| `GrantResults.GrantIsRedeemable` | services/oidc/authorize.go:26-91 | exactly which requests are granted; a granted one has its code on record, redeemable at once, any other changes nothing |
| `Oidc.CodeStore.Consume` | services/oidc/codes.go:62-80 | the store and outcome of the specification, branch by branch |
| `Oidc.ScopeContainsOfflineAccess` | services/oidc/refresh.go:183-190 | true exactly if offline_access stands in the scope as a word of its own |
| `Oidc.ValidatePkceVerifier` | services/oidc/token.go:226-252 | accepts exactly the verifiers of RFC 7636, and names the first check that fails |
| `Oidc.Admission` | services/oidc/token.go:50-97 | lets a request through exactly if its grant type is known and id and secret are the client's, in the header or in the body and not in both |
| `Oidc.ExpiresIn` | services/oidc/token.go:42-48 | the whole seconds of the token lifetime, and 1 exactly for lifetimes below two seconds |
| `Oidc.Issuer.StartServer` | services/oidc/server.go:21-55 | a new key and two empty stores, or, if the listener fails, no key and no run |
| `Oidc.Issuer.StopServer` | services/oidc/server.go:58-71 | drops key and stores; idempotent |
| `Oidc.Issuer.HandleAuthorize` | services/oidc/authorize.go:14-97 | redirects only to registered URIs, and adds a code record exactly when the request is accepted, for the subject that was asked for |
| `Oidc.Issuer.PresentCode` | services/oidc/token.go:109-139 | goes on exactly if admitted with a live code, its redirect URI and, if there is a challenge, a right verifier, and a flight for its record has begun; otherwise replies with the reason |
| `Oidc.CodeTokensMinted` | services/oidc/token.go:144-210 | an exchange no failure strikes mints an id token, an access token if an audience was asked for, a refresh token if offline access was |
| `Oidc.Issuer.FinishCode` | services/oidc/token.go:141-213 | hands out exactly the tokens minted, with the grant's scope, or an internal error exactly if a failure struck one of them |
| `Oidc.Issuer.IssueRefreshToken` | services/oidc/refresh.go:38-63 | signs first and stores after, so a failure stores nothing |
| `Oidc.Issuer.ConsumeRefreshToken` | services/oidc/refresh.go:68-101 | the store and outcome of the specification, branch by branch |
| `Oidc.Issuer.PresentRefresh` | services/oidc/refresh.go:105-123 | goes on exactly if a flight for the consumed record has begun; the mismatch reply is never sent |
| `Oidc.Issuer.FinishRefresh` | services/oidc/refresh.go:125-179 | hands out exactly the tokens minted, with the grant's scope: a refresh token always, an access token if the grant has an audience |
| `Oidc.Issuer.HandleClientCredentials` | services/oidc/token.go:254-298 | hands out one access token, for the audience and scope asked for, exactly if admitted and the audience is allowed |

## Left out

- The Docker client, frame decoding, HTTP serving, form parsing and JSON: a session is a sequence of
  frames and an end, a handler a function of parsed parameters.
- RSA, SHA-256, base64 and JWT encoding: a token is a record of claims and a key, the S256 image an
  uninterpreted function. The library's reading of a time claim of 0 as absent is not modelled.
- The wrapper of the streaming goroutine that makes a Docker client and warns if it cannot, and the
  `since` timestamp, which only bounds duplicates on the daemon's side.
- Real waiting: a Wait timeout and the end of a backoff wait are choices, session lengths are given.
- Contexts of services and hooks: cancellation reaches them as an error they may or may not return.
- Error values: which error is reported and how errors are joined. stopTrack joins the errors of all its
  stages, stopTracks keeps the first track's; the model keeps only whether each Stop failed.
- `EnvResults.ErrorMeansIdle`: the return of a rolled-back Start to its caller is one step with the end of
  its teardown, so a competing Start accepted between the two is not seen.
- `EnvMisuse.StopCrashesExactly`: the machine has one teardown at a time. Under misuse the code can have
  two, after Start has set the environment running under a foreign Stop; the machine's rollback then waits
  for the other teardown. Neither teardown publishes properties, and publishing is what can panic.
- `Oidc.Issuer.StopServer`: requires that no handler is in flight, one of the hypotheses above. The code
  shuts down with handlers in flight, too, whose further signing and storing is then not covered.
- `LineWriter.LineWriter.Write`: its argument and the line passed to Emit are values, so that a logger
  might keep or the caller might reuse those bytes is not modelled. The buffer itself is an array.
- `Env.Env.BeginStop`: the started cube is a sequence of sequences, so the deep copy is checked for content
  only, not for storage of its own.
- Hook runners, stage goroutines and their joins: they are steps of the machine, not methods of `Env`.
- A rand failure in /authorize, which stores nothing, and the discovery, key set and userinfo endpoints.
- `Oidc.Issuer.FinishCode`: all clock readings of one handler stretch coincide. Only parsing a refresh token
  and looking up its record have clock readings of their own.
- Strings are sequences of characters; byte strings that are no valid UTF-8 are not modelled.
- Fairness: that goroutines get scheduled, that services and hooks return.
