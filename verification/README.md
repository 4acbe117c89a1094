# Verified models of grelmicro's coordination core

This project models the parts of grelmicro whose correctness depends on whole runs rather than on
one call: the fenced lease behind every lock and election backend, the clients on top of it, the
single-flight protocols, the caches and tables that stand for something simpler, and two loops that
are easy to get wrong. Every claim is a `lemma` or an `ensures` clause over all inputs, all runs or
all interleavings.

`dafny verify dfyconfig.toml` checks all of it.

## How the models are built

- **One abstract lease.** `Leases` holds a lease as a holder with an expiry and a fence that only
  grows. The memory adapter is a class that refines it; the Redis scripts, the Postgres statements
  and the SQLite statements are atomic steps that refine it. Backends differ in whether the expiry
  instant itself still counts as held, so the lease takes that as a parameter (`Boundary`).
- **Kubernetes** is split into a read step and a version-checked write step, because that is where
  other clients interleave, all on one clock; a write that lands is an abstract step.
- **Clients and single-flight protocols** are timed state machines: one step is one stretch of a
  coroutine between two awaits, and a run is any interleaving of such steps on a clock that never
  goes back. In the leader election, and in both protocols over the lock registry, the hypotheses
  that the code does not enforce are conditions on runs, and the conditions are proved exact.
- **Objects updated in place** (`MemoryLockAdapter`, `Lock`, `TaskLock`, `LeaderElection`,
  `AsyncStampedeGuard`, `MemoryCacheAdapter`, `TTLCache`, `DuplicateFilter`, the app's item list,
  `TrustedProxies`) are classes whose methods are proved against a function of the old state.
- Clock readings, random draws, backend replies, address parsing and fresh nonces are parameters.

| file | modules | subject |
|---|---|---|
| `Basics.dfy`, `Decimal.dfy` | `Sequences`, `Rounding`, `Decimal` | shared definitions |
| `Leases.dfy` | `Options`, `Leases` | the abstract fenced lease and what its fences mean over runs |
| `LockClient.dfy` | `MemoryLock`, `LockClient` | memory lock backend, `Lock`, the retry loop |
| `RedisLock.dfy` | `RedisLock` | the Lua lock scripts over one keyspace |
| `SqlLock.dfy` | `ThreeValued`, `SqlLock`, `SqliteLock` | the SQL lock statements, NULLs and whole-second clocks |
| `KubernetesLock.dfy` | `KubernetesLock` | optimistic concurrency on a Lease object |
| `Election.dfy` | `Election`, `MemoryElection`, `ElectionScripts` | leader records on three backends |
| `LeaderElection.dfy` | `LeaderWorker`, `LeaderCluster` | what a worker believes, and safety of a cluster |
| `TaskLock.dfy` | `TaskLockObject`, `TaskLockRuns` | the minimum hold of a task lock |
| `KeyedLocks.dfy` | `KeyedLocks`, `LockProtocol` | the per-key lock registry with eviction |
| `Stampede.dfy` | `Stampede` | compute-once behind the registry |
| `Idempotency.dfy` | `Idempotency` | idempotent blocks |
| `IdempotencyAnswers.dfy` | `IdempotencyAnswers` | what a block stores and what its retries answer |
| `IdempotencyRuns.dfy` | `IdempotencyRuns` | the runs that show its hypotheses are needed |
| `Health.dfy` | `Health` | coalesced health checks |
| `MemoryCache.dfy` | `MemoryCache` | tag indexes that stand for one flat map |
| `TtlCache.dfy` | `TtlCache` | least-recently-used bookkeeping over that backend |
| `Dedup.dfy` | `Dedup` | the duplicate log filter |
| `Providers.dfy` | `Providers`, `Adoption`, `Sharing`, `AppLifecycle` | the passes that order providers |
| `Addresses.dfy`, `ForwardedFor.dfy`, `ClientIp.dfy` | same names | the client address walk |

## Where the code and its promises part

- `Lock.extend` documents an error when the lease has lapsed; the code re-grants it under a new fence
  (`LockClient.Lock.Extend`, `LockClient.ExtendAfter`).
- The election protocol's documentation counts a transition whenever an expired record is taken; the
  code keeps the count when the same holder returns (`Election.ReturnIsNotCounted`,
  `Election.TransitionsCountChanges`).
- Two workers can lead at once. `LeaderCluster.SafetyExactly` says when, for workers with distinct
  tokens on one atomic lease, one clock and one configuration: for `is_leader`, safety holds in every
  run exactly when (1) `renew_deadline` plus the longest reply delay is at most
  `lease_duration`, (2) a stopped service is called again only after its old claim has run out, and
  (3) its release lands before it is called again. The validator enforces none of these; replies are
  cut off at `backend_timeout`, and the default settings meet (1) with equality. For
  `is_leader_confirmed_within` the first condition is `max_age` plus the delay below `lease_duration`.
- A stopped worker goes on answering `is_leader()` (`LeaderCluster.StoppedWorkerStillBelieves`).
- Two Redis locks of which one is named after the other's fence counter spoil each other: once `x` has
  been granted, `fence:x` can be neither acquired nor released, and while `fence:x` is held, a free `x`
  cannot be acquired (`RedisLock.CounterNameIsTaken`, `RedisLock.CounterIsHeld`); no other pair of names
  does (`RedisLock.CounterNameClash`). The names the primitives produce never clash.
- A call for a new key that pushes a busy lock out of the full registry gives one key two locks. That
  happens exactly when the oldest entry not held is a lock between its release and its next holder, or when every
  entry is held; `Stampede.FullRegistryBreaksFlight` and `Stampede.HandOffEvictionBreaksFlight` reach
  both cases from an empty registry and end with two computes of one key in flight.
- A response can be replayed for another payload. `IdempotencyRuns.ForeignReplayExactly` says when, for
  blocks on one `Idempotency` object over a cache that nobody else writes and that keeps entries for
  their time: if some request for a lock pushes a busy lock out of the full registry, so that two first
  executions overlap; or if some fingerprint read comes at or after the lapse of the response read
  before it; or if the response is written more than a second after its fingerprint and read in
  between. `IdempotencyRuns.FullRegistryBreaksExecution` reaches the first from an empty registry.
- `set_many` with more than `maxsize` keys leaves stored entries untracked
  (`TtlCache.LargeBatchEscapes`).
- An IPv6 network shorter than /96 that covers the IPv4-mapped block, such as `::/0`, loses exactly
  the IPv4-mapped addresses to folding (`Addresses.FoldingIsExact`, `Addresses.AnyIsNotAny`).

## Model

| member | source | states |
|---|---|---|
| `Leases.SameIsPreserved` | grelmicro/coordination/memory.py:50-75 | two leases that differ only in a lapsed hold answer alike to every later acquire and release, and stay so |
| `Leases.FencesClimb` | grelmicro/coordination/_protocol.py:72-83 | of any two grants of one name in any run, the later fence is not lower, and strictly higher when the holder differs or a release took effect in between |
| `Leases.EqualFencesOneTenure` | grelmicro/coordination/_handle.py:31-42 | two grants with equal fences went to one token, and every grant in between to the same one |
| `Leases.TopCoversAccepted` | grelmicro/coordination/_handle.py:31-42 | the resource's high-water mark is at least every fence it has accepted |
| `Leases.NoStaleWriteAfterNewer` | grelmicro/coordination/_handle.py:31-42 | a resource that rejects lower fences accepts no write of an old holder after a newer holder's, whatever order writes arrive in |
| `MemoryLock.MemoryLockAdapter.Acquire` | grelmicro/coordination/memory.py:50-65 | takes the stored lease to the abstract acquire, returns its fence, and touches no other name |
| `MemoryLock.MemoryLockAdapter.Release` | grelmicro/coordination/memory.py:67-75 | answers as the abstract release and leaves a lease that nobody can tell apart from it |
| `MemoryLock.MemoryLockAdapter.Locked` | grelmicro/coordination/memory.py:77-80 | true exactly while the abstract lease is held |
| `MemoryLock.MemoryLockAdapter.Owned` | grelmicro/coordination/memory.py:82-85 | true exactly while the token holds the abstract lease |
| `MemoryLock.DriveRun` | grelmicro/coordination/memory.py:50-75 | through every run on an advancing clock a fresh adapter hands out exactly the fences of the abstract lease |
| `LockClient.Lock.AcquireNowait` | grelmicro/coordination/lock.py:503-528 | reentry is refused; otherwise the backend answers and the marker is set exactly on a grant |
| `LockClient.Lock.Extend` | grelmicro/coordination/lock.py:474-501 | keeps the fence exactly when the lease is still the caller's; a lapsed free lease comes back under a higher fence, a foreign one is an error |
| `LockClient.ExtendAfter` | grelmicro/coordination/lock.py:474-501 | acquire, wait, extend: the second fence is higher exactly when the wait exceeds the lease |
| `LockClient.Lock.Release` | grelmicro/coordination/lock.py:530-546 | any answer clears the marker, also "not owned"; a backend error, before or after the release took effect, keeps it for another try |
| `LockClient.JitteredInterval` | grelmicro/coordination/_base.py:20-24 | every draw keeps the interval within the jitter fraction of the base |
| `LockClient.JitterSpreads` | grelmicro/coordination/_base.py:20-24 | the interval grows evenly with the draw, by the jitter fraction to each side of the base |
| `LockClient.SleepsFitTimeout` | grelmicro/coordination/lock.py:450-472 | while the shortest possible sleeps do not fill the timeout, one more attempt is within the bound |
| `LockClient.AcquireWithTimeout` | grelmicro/coordination/lock.py:450-472 | for every clock on which a sleep lasts at least its interval, and all draws and replies, the loop ends within ceil(timeout / (interval * (1 - jitter))) + 1 attempts, returns the first grant there is, and times out only past the deadline |
| `Decimal.ReadShow` | grelmicro/coordination/redis.py:40-76 | decimal text reads back as the number it shows |
| `RedisLock.UnpackPack` | grelmicro/coordination/redis.py:40-76 | fence and token survive packing, also a token with colons |
| `RedisLock.KeysClash` | grelmicro/coordination/redis.py:155-157 | the lock key of one name is the counter key of another exactly when it is spelled `fence:` and that name |
| `RedisLock.AcquireRefines` | grelmicro/coordination/redis.py:40-62 | the acquire script simulates the abstract acquire; it fails exactly on a free lock with a duration below one millisecond, with the fence spent |
| `RedisLock.ReleaseRefines` | grelmicro/coordination/redis.py:63-76 | the release script simulates the abstract release, and `owned` is holding |
| `RedisLock.OtherNamesUntouched` | grelmicro/coordination/redis.py:155-178 | neither script changes the lease of another name, unless one is named after the other's counter |
| `RedisLock.CounterNameClash` | grelmicro/coordination/redis.py:40-62 | for every two names, acquiring one leaves the lease of the other alone in every keyspace if and only if neither is named after the other's counter |
| `RedisLock.CounterNameIsTaken` | grelmicro/coordination/redis.py:155-178 | once a lock has been granted, the one named after its counter can be neither acquired nor released |
| `RedisLock.CounterIsHeld` | grelmicro/coordination/redis.py:40-62 | while the lock named after its counter is held, a free lock cannot be acquired |
| `RedisLock.StoreRepresentsBook` | grelmicro/coordination/redis.py:40-76 | before every event of a run the keyspace represents the abstract lease of every name that clashes with none of the run |
| `RedisLock.RunRefines` | grelmicro/coordination/redis.py:159-193 | in every run on one keyspace in which no two names clash and no duration is below one millisecond, the scripts answer exactly what the abstract lease answers, with durations cut to whole milliseconds |
| `SqlLock.StatementsRefine` | grelmicro/coordination/postgres.py:52-92 | for every row, NULLs included, each statement does to the lease what the abstract step does, and locked and owned read it |
| `SqlLock.TableRunRefines` | grelmicro/coordination/postgres.py:52-92 | from any table the statements keep step with the abstract lease through every run, name by name, grants and releases alike |
| `SqliteLock.TruncationOpensBoundary` | grelmicro/coordination/sqlite.py:198-210 | a whole-second expiry on the truncated clock is an open real-time lease one second longer |
| `SqliteLock.SqliteRefines` | grelmicro/coordination/sqlite.py:59-101 | the row refines the abstract lease whose end is the rounded one |
| `SqliteLock.SqliteLeaseWindow` | grelmicro/coordination/sqlite.py:190-210 | a lease of d granted at t refuses every other token, whatever duration it asks for, through t + d and grants one from t + d + 2 at the latest |
| `SqliteLock.OverrunIsTight` | grelmicro/coordination/sqlite.py:198-210 | the two-second overrun is approached as closely as one likes |
| `KubernetesLock.StepKeepsInv` | grelmicro/coordination/kubernetes.py:191-254 | every read, landing, rejection and clock step keeps pending writes tied to the version they were decided on |
| `KubernetesLock.NoLostUpdate` | grelmicro/coordination/kubernetes.py:336-434 | a write takes effect only on the very object it was decided from, and of two writes decided from one version only one does |
| `KubernetesLock.TransitionsClimb` | grelmicro/coordination/kubernetes.py:336-391 | `leaseTransitions` never decreases, release and the closing sweep included |
| `KubernetesLock.GrantsClimb` | grelmicro/coordination/kubernetes.py:299-391 | of any two grants in landing order the later fence is not lower, and strictly higher when the holder differs |
| `KubernetesLock.LiveLeaseNotTaken` | grelmicro/coordination/kubernetes.py:161-254 | a landing write that removes or replaces a holder is that holder's own release, or the lease has lapsed |
| `KubernetesLock.FenceKeptIffExtend` | grelmicro/coordination/kubernetes.py:336-391 | a landing grant keeps the fence exactly when it read the lease live and its own |
| `KubernetesLock.DecideRefines` | grelmicro/coordination/kubernetes.py:191-254 | an operation answers without writing exactly when the abstract lease refuses it at its clock reading |
| `KubernetesLock.LandingGrantRefines` | grelmicro/coordination/kubernetes.py:299-391 | a landing grant is the abstract acquire at its operation's clock reading, for its own token and for the seconds asked for from the write's stamp, and at the landing except exactly when the caller's own hold lapsed on the way |
| `KubernetesLock.LandingVacancyRefines` | grelmicro/coordination/kubernetes.py:393-434 | a landing release is the abstract release and a landing sweep changes nothing, up to a lapsed hold |
| `KubernetesLock.RunSimulates` | grelmicro/coordination/kubernetes.py:161-254 | every step of every run is a step of the abstract lease: acquire or release at the clock reading of the operation, a sweep up to a lapsed hold, anything else nothing |
| `KubernetesLock.GrantLasts` | grelmicro/coordination/kubernetes.py:191-254 | after a landed grant any other token is refused if and only if it asks within the seconds granted, counted from the reading that dates the write |
| `KubernetesLock.GrantIsItsHolders` | grelmicro/coordination/kubernetes.py:217-254 | after a landed grant a release is attempted if and only if it is the grantee's and in that time |
| `KubernetesLock.UndisturbedAcquire` | grelmicro/coordination/kubernetes.py:191-215 | nobody interfering, a lease that is free, lapsed or the caller's own is acquired for the whole duration, under the next fence unless it was the caller's; any other stays as it is |
| `KubernetesLock.UndisturbedRelease` | grelmicro/coordination/kubernetes.py:217-254 | nobody interfering, a release does to the lease what the abstract one does |
| `Election.TransitionsCountChanges` | grelmicro/coordination/memory.py:170-211 | in every run `transitions` equals the holder changes among the grants since the last release |
| `Election.ReturnIsNotCounted` | grelmicro/coordination/memory.py:170-203 | a holder that returns after its lease lapsed starts a new tenure with the same count |
| `Election.TenureIsConstant` | grelmicro/coordination/memory.py:170-203 | holder, start and transitions stay put through an uninterrupted tenure |
| `Election.FollowerSeesLeader` | grelmicro/coordination/memory.py:170-203 | who does not lead is shown the live foreign record, and nothing changes |
| `MemoryElection.MemoryLeaderElectionAdapter.AcquireOrRenew` | grelmicro/coordination/memory.py:158-203 | stores and returns the record of the abstract step, other names untouched |
| `MemoryElection.MemoryLeaderElectionAdapter.Release` | grelmicro/coordination/memory.py:205-211 | removes the record exactly when it is live and the caller's |
| `ElectionScripts.ScriptsAgree` | grelmicro/coordination/postgres.py:412-503 | the PL/pgSQL function, NULL logic included, and the Redis script compute the in-memory step |
| `ElectionScripts.ReleasesAgree` | grelmicro/coordination/redis.py:415-455 | the Redis and Postgres releases and reads, NULL logic included, are the in-memory ones |
| `LeaderWorker.ReplyDecidesAnswers` | grelmicro/coordination/leaderelection.py:666-691 | after a reply, `is_leader` holds at a later time exactly for the holder before the renew deadline, and `is_leader_confirmed_within` exactly for the holder within the age |
| `LeaderWorker.ErrorKeepsAnswers` | grelmicro/coordination/leaderelection.py:693-739 | an error never changes what `is_leader` answers from then on, and withdraws a confirmation exactly past the renew deadline |
| `LeaderCluster.StepKeepsInv` | grelmicro/coordination/leaderelection.py:621-739 | every step of every worker, restarts included, keeps claims grounded in grants and grants standing until they lapse |
| `LeaderCluster.TakeLead` | grelmicro/coordination/leaderelection.py:693-720 | in any state of any run a worker whose request meets a free lease, or its own, leads once the reply is handled, by a record of the full duration from the serving |
| `LeaderCluster.FailureWithdraws` | grelmicro/coordination/leaderelection.py:693-739 | a failed request keeps what a worker claims, except a confirmation past the renew deadline, and leaves it running |
| `LeaderCluster.LeaderSafety` | grelmicro/coordination/leaderelection.py:474-527 | with room in the lease, quiet restarts and landed releases, no state of any run has two running claims by either question, and a claim has the live record behind it |
| `LeaderCluster.SplitBrain` | grelmicro/coordination/leaderelection.py:98-112 | every validated configuration without room for the reply delay has a run with two running claims |
| `LeaderCluster.EarlyRestart` | grelmicro/coordination/leaderelection.py:621-664 | under every validated configuration, a service called again at once claims what its release gave away |
| `LeaderCluster.LateRelease` | grelmicro/coordination/leaderelection.py:758-779 | under every validated configuration, a release that lands after its service was called again leads to two running claims |
| `LeaderCluster.SafetyExactly` | grelmicro/coordination/leaderelection.py:470-527 | for either question, any reply delay and any rule on restarts and releases: no run has two running claims if and only if restarts are quiet, releases land first and the lease has room (or nobody can claim at all) |
| `LeaderCluster.StoppedWorkerStillBelieves` | grelmicro/coordination/leaderelection.py:758-779 | a run in which a stopped worker and another one both answer `is_leader` |
| `TaskLockObject.ExitCommand` | grelmicro/coordination/tasklock.py:523-552 | what an exit asks of the backend keeps the lease until the minimum hold after the local start |
| `TaskLockObject.TaskLock.BeginExit` | grelmicro/coordination/tasklock.py:355-373 | clears the start, renews the nonce and hands over the exit command |
| `TaskLockRuns.LandKeepsGrants` | grelmicro/coordination/tasklock.py:408-483 | a landing request keeps every grant protected for its minimum hold |
| `TaskLockRuns.ExitMsgFine` | grelmicro/coordination/tasklock.py:523-552 | the request an exit sends cannot cut short any grant made to its token |
| `TaskLockRuns.ExitFrees` | grelmicro/coordination/tasklock.py:523-552 | an exit past the minimum hold sends a request after which the lease is not held, whenever it lands |
| `TaskLockRuns.ExitHolds` | grelmicro/coordination/tasklock.py:523-552 | an earlier exit sends a request that leaves the lease with its own token, landing at once until exactly the minimum hold after the local start |
| `TaskLockRuns.ExitResets` | grelmicro/coordination/tasklock.py:355-394 | after an exit the object can be entered again, under another nonce, and other objects are as before |
| `TaskLockRuns.FreeLockAdmits` | grelmicro/coordination/tasklock.py:408-483 | entering a free lock succeeds and holds it for the whole lease |
| `TaskLockRuns.HeldLockRefuses` | grelmicro/coordination/tasklock.py:408-483 | entering a lock another token holds changes no lease and ends in giving up |
| `TaskLockRuns.RefreshExtends` | grelmicro/coordination/tasklock.py:408-483 | a refresh that lands while its token holds the lease holds it for the whole lease from there |
| `TaskLockRuns.MinimumHold` | grelmicro/coordination/tasklock.py:336-394 | any two entries, by any callers through any objects, are granted at least the minimum hold apart |
| `TaskLockRuns.HoldIsExclusive` | grelmicro/coordination/tasklock.py:71-78 | nobody else is granted anything during the minimum hold after an entry |
| `KeyedLocks.AsyncStampedeGuard.EvictIdleLocks` | grelmicro/cache/_stampede.py:55-68 | drops the oldest unlocked entries, each found by a fresh scan, until within budget or all are locked |
| `KeyedLocks.AsyncStampedeGuard.GetLock` | grelmicro/cache/_stampede.py:84-94 | returns the registered lock moved to the end, or a fresh one after eviction |
| `KeyedLocks.MoveToEndIs` | grelmicro/cache/_stampede.py:84-94 | a used key becomes the newest and the others keep their order |
| `KeyedLocks.CallKeepsBusyRegistered` | grelmicro/cache/_stampede.py:55-94 | a call leaves every busy lock findable under its key if and only if the entry it pushes out is idle |
| `KeyedLocks.FewBusyKeysAreSafe` | grelmicro/cache/_stampede.py:28-68 | fewer busy keys than the budget and no hand-over in progress make every call safe, whatever the key |
| `LockProtocol.OneHolderPerKey` | grelmicro/cache/_stampede.py:71-94 | two callers holding locks of one key are one caller |
| `Stampede.StepKeepsInv` | grelmicro/cache/_stampede.py:97-129 | every step but an unsafe call keeps locks, store and finished computes in order |
| `Stampede.RegisteredExactly` | grelmicro/cache/_stampede.py:55-94 | in every run, every busy lock stays registered in all states so far if and only if every call so far was safe |
| `Stampede.SingleFlight` | grelmicro/cache/_stampede.py:97-129 | at most one compute per key is in flight in every state of every run until a call is unsafe |
| `Stampede.OneUsableLock` | grelmicro/cache/_stampede.py:55-94 | all locks of a key that anyone holds or awaits are one object |
| `Stampede.NoStrandedCall` | grelmicro/cache/_stampede.py:84-129 | in every state of every run, whoever waits on a lock has a holder that can give it up, or a first waiter that can go on |
| `Stampede.ComputesAreSpaced` | grelmicro/cache/_stampede.py:97-129 | the next compute of a key starts only after the value the previous one stored has lapsed |
| `Stampede.WaiterReusesValue` | grelmicro/cache/_stampede.py:97-129 | a caller that gets the lock while the stored value is live returns it without computing |
| `Stampede.ComputerReturnsItsValue` | grelmicro/cache/_stampede.py:97-129 | a call that computes returns the value it computed, and stores that value for its time to live |
| `Stampede.StoreGoesBack` | grelmicro/cache/_stampede.py:97-129 | a stored value was computed for its own key by a call of the run, or was there at the start |
| `Stampede.ReturnGoesBack` | grelmicro/cache/_stampede.py:97-129 | every returned value was computed, or stored at the start, for the very key the call asked for |
| `Stampede.FinishedValueIsReused` | grelmicro/cache/_stampede.py:97-129 | while a computed value lives and calls are safe, whoever gets the lock of its key returns that value |
| `Stampede.MissComputes` | grelmicro/cache/_stampede.py:97-129 | whoever gets the lock and finds nothing live computes |
| `Stampede.UnsafeCallBreaksFlight` | grelmicro/cache/_stampede.py:55-129 | from any state of any run, one unsafe call and one more caller lead to two computes of one key in flight |
| `Stampede.FullRegistryBreaksFlight` | grelmicro/cache/_stampede.py:55-68 | a run from an empty registry to as many held keys as the budget, no hand-over anywhere, and then to two computes of one key |
| `Stampede.HandOffEvictionBreaksFlight` | grelmicro/cache/_stampede.py:55-68 | a run from an empty registry in which one key is busy, being handed over, and its eviction leads to two computes of it |
| `Idempotency.StepKeepsInv` | grelmicro/idempotency/_idempotency.py:128-284 | every step but an unsafe request, with errors, conflicts, cancellations and timeouts, keeps locks and stored entries consistent |
| `Idempotency.RegisteredExactly` | grelmicro/idempotency/_idempotency.py:174-178 | in every run, every busy lock stays registered in all states so far if and only if every request so far was safe |
| `Idempotency.LockReleasedExactlyOnce` | grelmicro/idempotency/_idempotency.py:247-284 | in every run whatsoever, a block that is done has released the in-process lock as often as it acquired it, never more, and only while holding it |
| `Idempotency.OneExecution` | grelmicro/idempotency/_idempotency.py:128-245 | at most one first execution per key is in flight until a request is unsafe |
| `IdempotencyRuns.UnsafeRequestBreaksExecution` | grelmicro/idempotency/_idempotency.py:174-178 | from any state of any run, one unsafe request and one for the key whose lock it loses lead to two first executions of one key |
| `IdempotencyRuns.FullRegistryBreaksExecution` | grelmicro/cache/_stampede.py:55-68 | a run from an empty registry to as many held keys as the budget and on to two first executions of one key, safe until the request that breaks it |
| `Idempotency.NoExecutionWhileLive` | grelmicro/idempotency/_idempotency.py:128-245 | none starts or goes on while a stored response for its key is live, until a request is unsafe |
| `IdempotencyAnswers.CompletedIsStored` | grelmicro/idempotency/_idempotency.py:247-268 | after a body ends with a value, its block has yet to write it, or fails, or has written it for its key with the full time to live |
| `IdempotencyAnswers.FailedBodyStoresNothing` | grelmicro/idempotency/_idempotency.py:247-268 | a block whose body fails never writes a response |
| `IdempotencyAnswers.ResponseStays` | grelmicro/idempotency/_idempotency.py:128-245 | while requests are safe a response stays as written for as long as it lives |
| `IdempotencyAnswers.LiveReaderEndsWithIt` | grelmicro/idempotency/_idempotency.py:128-245 | a block that looks while a response lives never executes: it ends with exactly that response or raises |
| `IdempotencyAnswers.RetryEndsWithIt` | grelmicro/idempotency/_idempotency.py:128-245 | a block that looks within the time to live of a written response ends with the value written, or raises |
| `IdempotencyAnswers.FingerprintDecides` | grelmicro/idempotency/_idempotency.py:603-619 | reading the fingerprint raises if and only if a live one differs, and else replays the response found |
| `IdempotencyAnswers.MissExecutes` | grelmicro/idempotency/_idempotency.py:174-245 | looking under the lock and finding nothing live starts an execution, unless the distributed lock comes first |
| `IdempotencyAnswers.NoStrandedBlock` | grelmicro/idempotency/_idempotency.py:174-284 | in every state of every run, a queued block has an owner of its lock that can give it up, or a first waiter that can go on |
| `IdempotencyAnswers.DistGivenUp` | grelmicro/idempotency/_idempotency.py:196-284 | a block that took the distributed lock is done only after trying to release it, however it ends |
| `IdempotencyAnswers.FailedReleaseIsRetried` | grelmicro/idempotency/_idempotency.py:213-230 | when the release after a replay fails, it is tried once more before the block is done, and the block raises |
| `Idempotency.NoForeignReplay` | grelmicro/idempotency/_idempotency.py:603-634 | while requests are safe and the two delays leave no moment for it, a response stored with a fingerprint is replayed for that fingerprint only |
| `IdempotencyRuns.ForeignReplayExactly` | grelmicro/idempotency/_idempotency.py:603-634 | for every bound on the two delays and either rule on requests: no run replays a foreign response if and only if requests are safe, no fingerprint read comes at or after the lapse and the extra second covers the rest of the gap between the writes (or no fingerprint can be read at all) |
| `IdempotencyRuns.UnsafeRequestsLetThrough` | grelmicro/idempotency/_idempotency.py:174-178 | a run from an empty registry, with no delay anywhere, in which two unsafe requests make a response meet the other's fingerprint |
| `IdempotencyRuns.OverwrittenMarkLetsThrough` | grelmicro/idempotency/_idempotency.py:603-619 | however small the lateness allowed, a run in which a late read finds a later execution's fingerprint |
| `IdempotencyRuns.OutlivedMarkLetsThrough` | grelmicro/idempotency/_idempotency.py:621-634 | when the response can outlive its fingerprint, a run that replays it in between |
| `Health.StepKeepsInv` | grelmicro/health/_checks.py:524-561 | every step keeps events set or current, and one leader per running check |
| `Health.OneRunAtATime` | grelmicro/health/_checks.py:524-561 | at most one run of a check is in progress, whatever leaders are cancelled |
| `Health.NoStrandedWaiter` | grelmicro/health/_checks.py:524-561 | every waiter can go on at once or somebody is running the check it waits for |
| `Health.LeaderFreesWaiters` | grelmicro/health/_checks.py:524-561 | whoever leaves the lead sets the event of its waiters |
| `Health.ResultIsFresh` | grelmicro/health/_checks.py:524-561 | a returned result is the caller's own or was stored less than its `ttl` ago |
| `Health.RunsOnlyWhenStale` | grelmicro/health/_checks.py:524-561 | a run begins only when the latest result is too old for the caller |
| `Health.StoresGoBack` | grelmicro/health/_checks.py:524-561 | every cached result is one the check gave, dated when it gave it |
| `Health.ResultGoesBack` | grelmicro/health/_checks.py:524-561 | every returned result is one the check gave |
| `Health.RunnerReturnsItsResult` | grelmicro/health/_checks.py:524-561 | whoever runs the check returns what it gave and leaves it cached |
| `Health.RoundDecides` | grelmicro/health/_checks.py:524-561 | a round ends in the latest result if and only if it is young enough, else in a run if and only if nobody runs the check, else in waiting for whoever does |
| `Health.AggregateStatus` | grelmicro/health/_checks.py:563-574 | the aggregate is an error exactly when some critical check failed |
| `MemoryCache.MemoryCacheAdapter.RemoveFromTags` | grelmicro/cache/memory.py:151-159 | removes the key from the given tags and leaves no empty set |
| `MemoryCache.MemoryCacheAdapter.Associate` | grelmicro/cache/memory.py:128-142 | the tags of the latest write replace the earlier ones in both indexes |
| `MemoryCache.MemoryCacheAdapter.Drop` | grelmicro/cache/memory.py:144-149 | the flat map loses exactly that key |
| `MemoryCache.MemoryCacheAdapter.Get` | grelmicro/cache/memory.py:48-61 | a live value is returned, a lapsed entry is removed, nothing else changes |
| `MemoryCache.MemoryCacheAdapter.Set` | grelmicro/cache/memory.py:63-73 | the flat map gains the value with its expiry and tags |
| `MemoryCache.ReadAfterSet` | grelmicro/cache/memory.py:48-73 | a value that was set is read back before its time to live is over, and is a miss from then on |
| `MemoryCache.MemoryCacheAdapter.GetMany` | grelmicro/cache/memory.py:75-88 | returns the live values among the keys and forgets the lapsed ones |
| `MemoryCache.MemoryCacheAdapter.SetMany` | grelmicro/cache/memory.py:90-101 | the flat map gains the whole batch under one expiry and one set of tags |
| `MemoryCache.MemoryCacheAdapter.DeleteMany` | grelmicro/cache/memory.py:107-110 | the flat map loses exactly those keys |
| `MemoryCache.MemoryCacheAdapter.DeleteTags` | grelmicro/cache/memory.py:112-120 | exactly the keys whose latest write carried one of the tags go, although the loop shrinks the sets it walks |
| `TtlCache.StoredNames` | grelmicro/cache/ttl.py:79-92 | for keys without the separator, stored names of values and reserves never collide |
| `TtlCache.TTLCache.Promote` | grelmicro/cache/ttl.py:586-589 | makes the key the most recently used |
| `TtlCache.TTLCache.Evict` | grelmicro/cache/ttl.py:591-603 | the victim is the key used longest ago, and its value, reserve and early-refresh entry go with it |
| `TtlCache.TTLCache.Get` | grelmicro/cache/ttl.py:240-262 | a hit promotes and counts, a miss counts and leaves tracking valid |
| `TtlCache.TTLCache.Set` | grelmicro/cache/ttl.py:289-358 | a non-positive time to live changes nothing; else just enough of the oldest keys go, the value is stored and the key is newest |
| `TtlCache.StoreAfterSet` | grelmicro/cache/ttl.py:289-358 | after a write value and reserve stand under the key with their expiries and tags; all else stays but for the oldest key when a full cache meets a new one |
| `TtlCache.KeysAfterSet` | grelmicro/cache/ttl.py:586-603 | after a write the key is the newest and the others keep their order, the oldest going exactly when a full cache meets a new key |
| `TtlCache.TTLCache.SetMany` | grelmicro/cache/ttl.py:477-520 | the store is the old one less the victims plus the batch, tracked keys stay within `maxsize`, and every stored entry stays tracked exactly when the batch fits |
| `TtlCache.TTLCache.GetMany` | grelmicro/cache/ttl.py:447-475 | answers the live values, counts one hit or miss per key and promotes the hits in the order asked |
| `TtlCache.TTLCache.DeleteMany` | grelmicro/cache/ttl.py:522-555 | values, reserves and bookkeeping of exactly these keys go; the rest keeps its order |
| `TtlCache.BatchEndsUp` | grelmicro/cache/ttl.py:477-520 | a batch that fits ends up as the newest tracked keys, in its own order, within `maxsize` |
| `TtlCache.LargeBatchEscapes` | grelmicro/cache/ttl.py:477-520 | a batch larger than `maxsize` leaves a stored value that no tracked key owns |
| `TtlCache.BatchIsTracked` | grelmicro/cache/ttl.py:477-520 | storing a tracked batch keeps every stored entry owned by a tracked key |
| `TtlCache.WithoutKeepsOrder` | grelmicro/cache/ttl.py:586-603 | removing a key keeps the rest in order of last use |
| `Dedup.DuplicateFilter.SweepStale` | grelmicro/log/_dedup.py:306-317 | deleting the stale keys one by one leaves exactly the entries seen after the cutoff, in order |
| `Dedup.DuplicateFilter.Filter` | grelmicro/log/_dedup.py:297-334 | the table moves and the record passes as the step functions say, across sweep, expiry, drop and eviction |
| `Dedup.TableIsBounded` | grelmicro/log/_dedup.py:318-323 | in every run, on any clock, the table is within `cache_size` with distinct keys |
| `Dedup.RunRemembers` | grelmicro/log/_dedup.py:297-334 | the counter of a never-evicted key bounds how many of its passes are younger than `ttl` |
| `Dedup.SpacedWindow` | grelmicro/log/_dedup.py:297-334 | ordered times whose every entry is a window behind the one `allowed` later have at most `allowed` in any half-open window |
| `Dedup.RateBound` | grelmicro/log/_dedup.py:297-334 | on an advancing clock any half-open window of length `ttl` passes at most `allowed_repetitions` records of a key that was never evicted, across sweep and per-key expiry |
| `Dedup.TotalBound` | grelmicro/log/_dedup.py:329-334 | without a `ttl` such a key passes at most `allowed_repetitions` records in all |
| `Dedup.AllowancePasses` | grelmicro/log/_dedup.py:297-334 | a record passes when fewer than the allowed ones of its key came since some moment and every earlier one is more than `ttl` older, whatever else was swept or pushed out |
| `Dedup.SilenceLasts` | grelmicro/log/_dedup.py:297-334 | after a burst the key is dropped from the record after the allowed ones until `ttl` past that very record, which dropped ones do not put off; the first record later than that passes |
| `Dedup.SweepDropsStale` | grelmicro/log/_dedup.py:306-317 | a due sweep leaves no key last counted `ttl` ago or longer and is not due again for another `ttl`; otherwise only a pushed-out key goes |
| `Dedup.OrderIsByUse` | grelmicro/log/_dedup.py:318-334 | in every run the table lists its keys from the one logged longest ago to the latest |
| `Dedup.OldestIsPushedOut` | grelmicro/log/_dedup.py:318-323 | the key pushed out is the one logged longest ago, and only a full table without the new key pushes one out |
| `AppLifecycle.App.DiscoverSharedProviders` | grelmicro/_app.py:971-987 | the loop builds the list in which each item stands behind the providers it is the first to borrow |
| `Adoption.EachAdoptedOnce` | grelmicro/_app.py:948-987 | every item occurs as often as before, plus once if it is an unlisted provider that an item borrows |
| `Adoption.AdoptedWithFirstBorrower` | grelmicro/_app.py:948-987 | an adopted provider enters with the first item that borrows it |
| `Adoption.RebuiltKeepsParts` | grelmicro/_app.py:971-987 | items that are not providers keep their order |
| `Adoption.LatenessIsListed` | grelmicro/_app.py:948-1038 | the rebuilt list is in opening order if and only if no listed provider comes only after an item that borrows it |
| `AppLifecycle.App.MoveProviderAhead` | grelmicro/_app.py:1040-1058 | a late provider moves to the index or raises under strict; an early one stays |
| `AppLifecycle.App.OrderProvidersBeforeDependents` | grelmicro/_app.py:1015-1038 | reordering while enumerating ends with every borrowed provider before every borrower, is a permutation that keeps other items in order and leaves an ordered list alone; strict raises exactly on a list out of order |
| `AppLifecycle.App.ResolveProviderSharing` | grelmicro/_app.py:989-1013 | every owner after the first under its key is rebound to the first one's provider, nothing else changes |
| `Sharing.OneOwnedPerKey` | grelmicro/_app.py:989-1013 | after sharing, owners under one class and prefix own one provider |
| `Sharing.OneOwnerPerKey` | grelmicro/_app.py:989-1013 | when every owner came with a provider of its own, two owners under one class and prefix are one backend |
| `Sharing.OwnerComesFirst` | grelmicro/_app.py:989-1013 | a backend that lost its provider borrows one whose owner comes earlier |
| `Sharing.KindIsKept` | grelmicro/_app.py:989-1013 | sharing leaves every owner with a provider of the class and prefix it had |
| `Sharing.FirstOwnerKeeps` | grelmicro/_app.py:989-1013 | of owners with providers of their own, one keeps it if and only if no earlier owner has one of its class and prefix |
| `Providers.BackendsAre` | grelmicro/_app.py:1076-1090 | an item is inspected through its filled backend slots, or through its plain backend when none is filled |
| `AppLifecycle.App.Prepare` | grelmicro/_app.py:904-906 | the three passes together: fails exactly for a strict app with a late listed provider; else each item finds what it borrows already open, one owned provider per key (and one owner, if owners came with distinct providers), each adopted provider once, other items in order |
| `Addresses.FoldedMembership` | grelmicro/clientip.py:174-195 | membership after folding is coverage as IPv6, less the IPv4-mapped addresses of a network shorter than /96 |
| `Addresses.FoldingIsExact` | grelmicro/clientip.py:184-195 | folding keeps every membership if and only if the network is not a shorter one covering the IPv4-mapped block |
| `Addresses.AnyIsNotAny` | grelmicro/clientip.py:198-208 | `::/0` covers every IPv4 address and contains none |
| `Addresses.SingleMatches` | grelmicro/clientip.py:264-269 | trusting one address trusts that address in each of its forms and nothing else |
| `Addresses.BlockIsRange` | grelmicro/clientip.py:258-261 | a network holds exactly the numbers from its first address through the next power of two |
| `ClientIp.TrustsExactly` | grelmicro/clientip.py:258-261 | the compiled set trusts what its declared networks cover, but for what folding hides |
| `ForwardedFor.CollectHeader` | grelmicro/clientip.py:351-366 | reading stops past the limit exactly when all lines together exceed it, else joins them |
| `ForwardedFor.NameInAnyCase` | grelmicro/clientip.py:357-359 | a line counts if and only if its name is the header's, in any mix of ASCII cases |
| `ForwardedFor.OtherNamesIgnored` | grelmicro/clientip.py:357-359 | lines of other names leave what is read as it was |
| `ForwardedFor.StripPadding` | grelmicro/clientip.py:426 | white space goes from both ends of an entry, all six kinds of it, and nothing else |
| `ForwardedFor.EntriesOfJoin` | grelmicro/clientip.py:420-427 | joining the lines and splitting again reads every line's own entries |
| `ForwardedFor.EntriesAreTheTexts` | grelmicro/clientip.py:426-427 | texts joined by commas, with any white space around each, are read as exactly these texts in order, empty ones left out |
| `ForwardedFor.SplitShow` | grelmicro/clientip.py:287-320 | a host with or without a port, bracketed when it has colons, is read back as written |
| `ForwardedFor.PlainPort` | grelmicro/clientip.py:306-320 | after a plain host an entry is malformed if and only if the port is empty, not all digits or above 65535 |
| `ForwardedFor.BracketedPort` | grelmicro/clientip.py:295-305 | after a bracketed host nothing may follow, or a colon and a port; anything else is malformed |
| `ClientIp.TrustedProxies.Contains` | grelmicro/clientip.py:258-261 | true exactly when some network contains the folded address |
| `ClientIp.TrustedProxies.WarnUntrustedPeer` | grelmicro/clientip.py:323-348 | a peer is reported exactly once, when it forwards something, and each report uses up one of eight |
| `ClientIp.TrustedProxies.ResolveClientAddress` | grelmicro/clientip.py:401-460 | the answer is the resolution function's, and at most one report is made |
| `ClientIp.WalkStops` | grelmicro/clientip.py:439-460 | the length of the trusted tail alone decides reason, hops and address, for any hop limit |
| `ClientIp.KeptEntries` | grelmicro/clientip.py:431-437 | a positive cap keeps the last entries, zero keeps all and a negative one drops as many in front |
| `ClientIp.HonestChainResolves` | grelmicro/clientip.py:401-460 | from a trusted peer, the caller that its proxies wrote down is resolved with its port and their number, whatever lines came before and however the entries are spaced |
| `ClientIp.OtherwiseThePeer` | grelmicro/clientip.py:401-460 | every other answer is the peer's own address and port, and an untrusted peer gets no other |
| `ClientIp.ReasonsExactly` | grelmicro/clientip.py:413-460 | for a trusted peer, each reason other than resolved holds exactly when it should: header too large, no entry, chain run dry with or without dropped entries, hop limit, malformed entry |
| `ClientIp.ResolvedExactly` | grelmicro/clientip.py:439-460 | a walk resolves to an entry if and only if it is the rightmost untrusted one within the hop limit, and `hops` counts the entries after it |
| `ClientIp.ResolvedIsVouched` | grelmicro/clientip.py:369-460 | a resolved address comes from a trusted peer, is itself untrusted, and only trusted proxies follow it |
| `ClientIp.PrependingChangesNothing` | grelmicro/clientip.py:426-460 | lines in front never change a resolved, malformed or hop-limited result exactly as long as the header fits, also past the entry cap |
| `ClientIp.CuttingChangesNothing` | grelmicro/clientip.py:351-366 | cutting a line at a comma into two (section 5.3 of RFC 9110) changes no result, size limit included |
| `ClientIp.PrefixChangesNothing` | grelmicro/clientip.py:426-460 | text in front of the first value behaves like lines in front |

## Left out

- Coroutine bodies of the single-flight protocols, task lock requests and Kubernetes operations are steps on values, split at their awaits; aliasing between objects of different services is not modelled.
- Live reconfiguration: every timing result keeps one configuration for the whole run.
- `Lock.acquire` without a timeout, which may wait for ever, and the thread adapters.
- The distributed lock inside the stampede guard, background early refreshes and streamed computes.
- Numbers past what Lua prints exactly (fences from 1e14 on) and rounding of Redis times.
- The Kubernetes election adapter.
- Kubernetes name sanitising, labels and annotations.
- Nested entries of one `TaskLock` object from one caller, and its thread adapter.
- Cache writes of an idempotent block that land after its cancellation.
- `TTLCache.delete_tags`, which clears the bookkeeping and so leaves the remaining stored entries untracked, and the early-refresh entries' own contents.
- Cache keys that contain the separator of the stored names.
- Redis durations below one millisecond in whole runs; `RedisLock.AcquireRefines` says what one such request does.
- CPython's limit on the digits of an integer literal, which a very long port could meet.
- Parsing of address text: any parser may be given.
- `TrustedProxies` entries of a wrong type or with unreadable text, which are errors at construction.
- Providers that themselves borrow a provider, and backend hooks that reject a shared provider.
- `MemoryScheduleAdapter`, cron and intervals, metrics, tracing, serializers, connections, migrations and janitors, framework integrations: I/O or easy members.
