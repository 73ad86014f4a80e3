# Proofs about a multi-tenant NestJS scaffold

This project models three stateful cores of the scaffold and proves what they are for.

* **Message pipeline.** A main queue, a ladder of retry queues with growing delays, a dead-letter
  queue, and any number of consumer workers that deduplicate through a Redis flag, a Redis lock and a
  table of processed events. `Pipeline` is the machine of single effects (one Redis command, one query,
  one ack per step, arbitrarily interleaved); `Consumer.RabbitmqConsumer` is the code of one worker,
  broker operation and dead-letter drain, each of whose effects is proved to be one step of that
  machine. `Messages` and `Topology` are what both rest on; `Broker` proves that the declared queues do
  what the machine's moves assume, and `Idempotency` that the string keys in `Redis` are the machine's
  flags and locks.
* **Roles, permissions and the access cache.** `AccessModel` holds the tables, the view
  `getUserAccess` derives and the cache; `AccessOps` and `AccessSeed` are the operations;
  `AccessServices` holds the services as classes that change a shared store step by step; the store's
  cache is what `AccessCache` reads back from the string keys in `Redis`. The claims
  about all runs are in `AccessTheorems`, `Delegation`, `PermissionMatrix`, `AccessKeys`, `SeededRuns` and,
  for lookups that overlap with changes, `Staleness`. `AccessVerdicts` says in terms of the rows when each
  operation and both guards say yes, `RoleEffects`, `AccountEffects` and `AccessEffects` what an accepted
  operation does to the rows and to people's access.
* **Refresh tokens and revocation.** `RefreshRotation` is the machine of concurrent logins, refreshes,
  logouts, clean-ups and deletions, and `RefreshHistory` what becomes of a login and of a row in its runs;
  `Revocation` the markers that reject access tokens, with the
  lifetimes of `Durations`; `Auth` the service as a class over both, with its markers in `Redis` under the
  keys of `Markers`.

Each machine has an action datatype, a guard and a transition function, and a run is a sequence of
actions; "every run" in the table means exactly that. The classes are proved against those transition
functions, with their own bodies, so a changed step in either breaks the other.

Hypotheses stay visible as `requires` clauses. Conservation needs that every expired or republished copy
reaches the main queue (`AllRouted`; `ConservationNeedsRouting` says exactly for which configurations and
published keys that is so), and that no step leaves the lock of an unrecorded event behind
(`NoneOrphaned`): a worker that dies while it holds such a lock, an acquiring call whose answer is lost,
and a release that fails after a failed handling each lose an event, and a witness run shows each;
`PipelineOrphans` proves that in every reachable state exactly these steps make a loss possible. Any
other death, failure, lost answer or expiry, at any moment, is part of the runs. Rotation is proved with
crashing refreshes wherever the claim survives them.

## Where the code and its documentation or comments differ

* `src/queue/rabbitmq.service.ts:119-121` says an expired retry message keeps its original routing key.
  It carries the retry queue's name, because it was sent there through the default exchange. The model
  follows the code; `TopicRoutesBack` and `ConservationNeedsRouting` say when that is harmless.
* A refresh signs the new access token first and writes the revocation marker afterwards
  (`src/auth/auth.service.ts:139-156`); when the clock moves to the next second in between, the token it
  returns is rejected (`RefreshedTokenSurvivesExactlyWhen`).
* `TenancyService.remove` announces the instant revocation of access tokens but leaves the access
  entries, so cached answers outlive the tenant (`AnswersAreCurrentExactlyWhen`,
  `RefusalReachesTheCache`).
* `parseTtlSeconds` claims the notation of `ms` but reads a whole number and then looks at the last
  character only. With weeks, with `2 hours`, `1 day` or `1H`, with fractions such as `1.5h`, revocation is
  forgotten too early (`UnitsThatOutlive`); `second` counts as days, which is harmless.
* The access-token lifetime defaults to `1h` in `src/config/env.validation.ts:18` and to `2h` in the
  services and the repository's README; the model takes any lifetime.
* `publish` sends any object, but one with a field `payload` of its own is taken for a wrapper: the handler
  is given what that field holds (`PublishedComesBack`).
* An edit of a role's permissions reads the actor's access before and after the write. When the first
  answer came from a cached entry of a tenant that is no longer active, the edit is written and then answered
  as unauthorized (`StaleEditIsWritten`).
* A dead letter whose key does not route through the exchange is acked and gone (`DrainIsComplete`).

## Model

| member | source | states |
|---|---|---|
| Topology.LadderDelay | src/queue/rabbitmq.service.ts:112-117 | the delays of the first n retry levels add up to 1250·(5^n − 1) ms |
| Topology.TopicRoutesBack | src/queue/rabbitmq.service.ts:118-138 | with a topic binding of plain words and `#`, expired retries come back exactly when those words begin every retry queue name (section 3.1.3.3 of AMQP 0-9-1) |
| Topology.ForeignBindingLosesRetries | src/queue/rabbitmq.service.ts:118-138 | a topic binding that starts with another literal word drops every expired retry |
| Topology.RetryQueueFresh | src/queue/rabbitmq.service.ts:109-128 | no retry queue shares its name with the main or the dead-letter queue |
| Broker.TopologyIsSound | src/queue/rabbitmq.service.ts:105-140 | exactly levels 1..maxRetries have a queue, each with its delay; an expired copy comes back exactly when its name routes; a reject goes to the dead-letter queue, which forwards nothing |
| Broker.MachineFollowsTopology | src/queue/rabbitmq.service.ts:105-140 | the machine moves copies as the declared queues do: an expired copy by the dead-letter route of its queue, a retry only to a declared queue with its delay |
| Broker.RabbitmqService.SetupTopology | src/queue/rabbitmq.service.ts:105-140 | declares exactly the intended queues, exchange and binding, keeps others, and can be repeated |
| Broker.RabbitmqService.AssertRetryQueues | src/queue/rabbitmq.service.ts:112-129 | the loop over the levels declares the whole ladder |
| Messages.IdentityIsStable | src/queue/rabbitmq.service.ts:293-332 | event id, routing key and payload read the same after every journey of retries and republishes if and only if the body pins the id and the key |
| Messages.UnpinnedChanges | src/queue/rabbitmq.service.ts:253-261 | an unpinned id is lost by one retry, an unpinned key by one republish |
| Messages.PublishedIsPinned | src/queue/rabbitmq.service.ts:188-201 | what `publish` builds is pinned in both modes and reads back its id and key |
| Messages.CdcIsPinned | src/queue/rabbitmq.service.ts:300-316 | a CDC body is pinned exactly in exchange mode (or when its key is the queue name) |
| Messages.ReadingOrder | src/queue/rabbitmq.service.ts:297-332 | the key is the first that is there of body, retry header, delivery and payload, the id the first of message, body, payload and header; a message is readable exactly when it has both and an object for payload, and then says exactly these and the unwrapped payload |
| Messages.PublishedComesBack | src/queue/rabbitmq.service.ts:188-201 | after every journey a published object is read back under its id and key, and as itself if and only if it has no field `payload` that is an object or JSON text; otherwise as what that field holds |
| Messages.OutboxRowComesBack | docker/debezium/application.properties:33-44 | the message the router makes of an outbox row reads as exactly that row's id, key and payload; after every journey as well if and only if an exchange is configured or the key is the queue's name |
| Messages.UserCreatedComesBack | src/queue/rabbitmq.consumer.ts:111-124 | the handler reads four texts from such a message, after any journey, exactly when the row was written with them |
| Messages.RetryCountOf | src/queue/rabbitmq.service.ts:357-359 | the retry count is the number of retries made, also across the dead-letter queue |
| PipelineSafety.NoEventLost | src/queue/rabbitmq.consumer.ts:32-109 | in every run, whatever fails, dies or expires, an event that reached the main queue is recorded or has a copy in a queue or un-acked at a worker, unless a copy was sent under a key that does not route or the lock of an unrecorded event was left behind |
| PipelineSafety.InvStep | src/queue/rabbitmq.service.ts:223-280 | every single step, those two excepted, keeps the invariant behind it: lock ownership, honest flags, bounded ladder, a firm copy or record per event |
| PipelineSafety.RetiredIsKept | src/queue/rabbitmq.consumer.ts:61-66 | a delivery heading for its ack leaves the event recorded or in the hands of the lock's holder |
| PipelineWitness.ConservationNeedsRouting | src/queue/rabbitmq.service.ts:118-128 | over runs that leave no such lock behind and publish under given keys, all events are conserved if and only if every retry queue name and every one of these keys routes to the main queue |
| PipelineWitness.HolderDeathLosesEvent | src/queue/rabbitmq.consumer.ts:56-66 | one death under the lock is enough to lose an event |
| PipelineWitness.LostAnswerLosesEvent | src/queue/idempotency.guard.ts:23-29 | one acquiring call that took effect but whose answer was lost is enough as well |
| PipelineWitness.FailedReleaseLosesEvent | src/queue/rabbitmq.consumer.ts:81-84 | so is a failing handler whose release fails too |
| PipelineOrphans.OrphaningCanLose | src/queue/rabbitmq.consumer.ts:56-84 | from every reachable state: once a step leaves the lock of an unrecorded event behind, the event can be lost quietly (no new message, death or expiry) and without another such step |
| PipelineOrphans.OrphaningIsExact | src/queue/rabbitmq.consumer.ts:56-84 | with everything routed and no such step before, a step leaves such a lock behind if and only if some event can then be lost that way |
| PipelineWitness.HandlerCanRunTwice | src/queue/rabbitmq.consumer.ts:41-80 | without a fault or expiry the handler can still run twice for one event |
| PipelineClaims.LockHolderIsInSection | src/queue/rabbitmq.consumer.ts:56-109 | while no step leaves a lock behind, the last acquirer of a present lock is inside the section, TTL expiry and double release included |
| PipelineClaims.MutualExclusion | src/queue/rabbitmq.consumer.ts:56-106 | without TTL expiry at most one worker is in the section of an event under one routing key until its row is written, whatever dies or fails (under two keys an event has two locks) |
| PipelineClaims.FlagsAndRowsAreHonest | src/queue/rabbitmq.consumer.ts:33-54 | a flag implies a record was made; a record implies the handler succeeded or none exists for the key |
| PipelineClaims.HandlerRunsAfterRecord | src/queue/rabbitmq.consumer.ts:41-54 | while the row lives, later handler runs are bounded by the deliveries that had passed the row check before it |
| PipelineClaims.RetriesAreBounded | src/queue/rabbitmq.service.ts:239-279 | retry counts never exceed maxRetries, queue i holds copies on retry i only, every retry send targets a declared queue |
| PipelineClaims.RunsAreFinite | src/queue/rabbitmq.service.ts:246-279 | runs without publish, republish or redelivery are bounded by a weight, the retry-plus-dead-letter split of a refused send included |
| PipelineClaims.RestMeansSettled | src/queue/rabbitmq.service.ts:223-280 | under the hypotheses of NoEventLost, at rest every event is recorded or in the dead-letter queue |
| Consumer.SteadyTravel | src/queue/rabbitmq.service.ts:253-261 | the broker's hops on raw messages are the machine's moves of copies, and what is read from them stays the same, payload included |
| Consumer.DrainIsComplete | src/queue/dlq-consumer.service.ts:53-94 | the drain forwards everything, in order and unchanged but for the mark of a republish, exactly when every resolved key routes |
| Consumer.RabbitmqConsumer.ExhaustedCopyReturns | src/queue/dlq-consumer.service.ts:53-83 | a dead letter without retries left is republished behind what waits in the main queue and delivered after it: if its delivery fails it is at the end of the dead-letter queue again as the same copy, and otherwise gone from it; no retry queue changes by it |
| Consumer.RabbitmqConsumer.constructor | src/queue/rabbitmq.service.ts:105-140 | starts where the machine starts: empty queues, nothing seen |
| Consumer.RabbitmqConsumer.Publish | src/queue/rabbitmq.service.ts:188-201 | appends the built message when its key routes, and nothing otherwise; handlers may then be given its id, key and unwrapped payload |
| Consumer.RabbitmqConsumer.Capture | docker/debezium/application.properties:33-44 | appends the message of an outbox row; handlers may then be given exactly the row |
| Consumer.RabbitmqConsumer.HandlersGetWhatWasSent | src/queue/rabbitmq.consumer.ts:68-78 | in every state of the running consumer, whatever a handler was given is, id, key and payload, what some message said when it arrived; each handled event is one such call, and a `user.created` one is well-formed |
| Consumer.RabbitmqConsumer.Deliver | src/queue/rabbitmq.service.ts:210-219 | hands the head of the queue to a free slot, un-acked |
| Consumer.RabbitmqConsumer.RetryExpire | src/queue/rabbitmq.service.ts:112-128 | the head of a retry queue moves to the main queue, or vanishes when it does not route |
| Consumer.RabbitmqConsumer.RepublishOne | src/queue/dlq-consumer.service.ts:53-83 | takes the head of the dead-letter queue and republishes it under its resolved key |
| Consumer.RabbitmqConsumer.RepublishAll | src/queue/dlq-consumer.service.ts:86-94 | terminates, returns the depth, empties the queue, appends every routed body in order |
| Consumer.RabbitmqConsumer.NothingLost | src/queue/rabbitmq.consumer.ts:32-109 | in every state of the running consumer no accepted event is lost, under the hypotheses of NoEventLost on what has happened so far |
| Consumer.RabbitmqConsumer.IsProcessed | src/queue/rabbitmq.consumer.ts:33-39 | the flag check and where it leads |
| Consumer.RabbitmqConsumer.FindRow | src/queue/rabbitmq.consumer.ts:41-54 | the row check and where it leads |
| Consumer.RabbitmqConsumer.AcquireLock | src/queue/rabbitmq.consumer.ts:56-66 | takes the lock exactly when it is free; a call whose answer is lost may have set it all the same |
| Consumer.RabbitmqConsumer.RunHandler | src/queue/rabbitmq.consumer.ts:69-78 | an unknown key counts as handled; a malformed `user.created` or a failing handler as an error; otherwise the handler is given the envelope read from the message |
| Consumer.RabbitmqConsumer.InsertRow | src/queue/rabbitmq.consumer.ts:88-108 | inserts the row, also when the answer is lost, or reports the unique violation |
| Consumer.RabbitmqConsumer.Dispatch | src/queue/rabbitmq.consumer.ts:32-85 | for every combination of answers of Redis, table and handler it does what the machine does with them, and ends returned, skipped or thrown |
| Consumer.RabbitmqConsumer.HandleLocked | src/queue/rabbitmq.consumer.ts:68-84 | the same for the guarded part; the lock is deleted however it ends, unless it ends in an error and the last delete failed |
| Consumer.RabbitmqConsumer.MarkProcessed | src/queue/rabbitmq.consumer.ts:87-109 | the same for row, flag and release; skipping means the row was there, and without an error row and flag are there and the lock is not |
| Consumer.RabbitmqConsumer.HandleMessage | src/queue/rabbitmq.service.ts:223-280 | for every combination of answers, one delivery from parse to ack, retry or dead letter is the machine's run with these answers, a malformed `user.created` being refused by its handler; a failure leaves exactly the raw retry and dead-letter copies the answer of `sendToQueue` allows |
| Consumer.CleanDelivery | src/queue/rabbitmq.consumer.ts:32-109 | how a delivery ends when every call succeeds, in all cases: unreadable, flagged, recorded (the flag is restored), in hand elsewhere (skipped), or new (handled once, leaving row and flag and no lock) |
| Consumer.ThrowingHandler | src/queue/rabbitmq.consumer.ts:68-84 | a throwing handler leaves nothing behind but the failing delivery |
| Consumer.RabbitmqConsumer.Fail | src/queue/rabbitmq.service.ts:239-279 | the failure branch: the raw retry and dead-letter copies, and the machine's settling step |
| Redis.RedisService.SetWithOptions | src/redis/redis.service.ts:177-207 | EX/PX and NX/XX: what is stored, when it expires, when nothing is stored |
| Redis.RedisService.DeleteByPattern | src/redis/redis.service.ts:161-175 | the SCAN loop removes exactly the matching keys, touches no other and returns their number, pages may repeat keys |
| Redis.RedisService.Delete | src/redis/redis.service.ts:67-73 | removes the keys and counts the visible ones |
| Redis.PatternsAreExact | src/access/access.service.ts:74-92 | for plain ids the three patterns select exactly the user's, the tenant's and all access keys |
| Redis.PatternsStayInside | src/access/access.service.ts:74-92 | no access pattern matches a key outside the prefix |
| Idempotency.KeysAreInjective | src/queue/idempotency.guard.ts:35-41 | two pairs share a flag or a lock exactly when they are equal, or the one routing key, up to a ':', has swallowed the beginning of the other's id; a flag is never a lock |
| Idempotency.PlainKeysDiffer | src/queue/idempotency.guard.ts:35-41 | ids free of ':' never collide |
| Idempotency.ColonsCollide | src/queue/idempotency.guard.ts:35-41 | with ':' in an id two events can share a flag |
| Idempotency.IdempotencyService.MarkProcessed | src/queue/idempotency.guard.ts:17-21 | the flag is up for seven days and nothing else changes: the string keys show the machine with its flag set |
| Idempotency.IdempotencyService.AcquireProcessingLock | src/queue/idempotency.guard.ts:23-29 | taken exactly when nobody holds it, for 300 s: the string keys show the machine's lock taken |
| Idempotency.IdempotencyService.ReleaseProcessingLock | src/queue/idempotency.guard.ts:31-33 | deletes the lock whoever holds it, as the machine's release does |
| AccessEffects.AccessRowByRow | src/access/access.service.ts:29-67 | the two lists, row by row: which assignments, roles, bindings and permissions put a code in |
| AccessEffects.SetRolesEffect | src/users/users.service.ts:145-158 | replaces exactly that member's roles in that tenant |
| AccessEffects.RemoveUserEffect | src/users/users.service.ts:160-179 | no access to the tenant any more; nobody else affected; the account goes only with its last membership |
| AccessEffects.RemoveTenantEffect | src/tenancy/tenancy.service.ts:81-91 | no fresh access to the tenant for anyone; other tenants unaffected |
| AccessEffects.CreateUserEffect | src/users/users.service.ts:40-89 | the new member gets exactly the granted roles; others keep their view; a deactivated account is activated for all its tenants |
| AccessEffects.SeedRestores | src/database/seed.service.ts:60-107 | whatever was renamed, disabled or deleted, seeding leaves the built-in permissions, roles and administrator rows in force |
| AccessEffects.SeedKeepsSwitches | src/database/seed.service.ts:92-106 | seeding never flips an existing binding; what it adds is switched on, for the two administrators only |
| AccessEffects.SeedingAgainChangesNothing | src/database/seed.service.ts:60-107 | seeding a seeded database is the identity |
| AccessSeed.SeedWf | src/database/seed.service.ts:60-107 | seeding keeps references, reserved codes, unique codes and platform confinement, and leaves every built-in role |
| AccessKeys.UniqueKeysHold | prisma/schema.prisma:10-93 | emails, slugs, and role codes per tenant are unique after every run, the global role codes (whose null tenant the constraint ignores) included |
| AccessKeys.UpsertRolesUnique | src/database/seed.service.ts:72-90 | seeding roles never duplicates a code |
| AccessVerdicts.RolesGuardExactly | src/common/guards/roles.guard.ts:15-31 | in every reachable state a request that needs one of some roles gets through exactly when its sender is an active member of the token's active tenant and carries one of them or system_admin; others are unauthorized exactly when they are no active member, and forbidden otherwise |
| AccessVerdicts.PermissionsGuardExactly | src/common/guards/permissions.guard.ts:15-31 | the same for permissions: exactly the active members who carry system_admin, or a role for which an enabled permission with one of the codes is switched on |
| AccessVerdicts.AssignableExactly | src/roles/roles.service.ts:191-222 | in every reachable state roles may be assigned if and only if all exist, are enabled and in scope, none but system_admin has a platform permission on, and the actor is an active member who carries system_admin, or else none is system_admin and every code switched on in them is carried by the actor; with the reason otherwise |
| AccessVerdicts.TaintedRoleIsRefused | src/roles/roles.service.ts:200-209 | a role other than system_admin with a platform permission on is refused whoever asks, in any tables at all |
| AccessVerdicts.SetRolesExactly | src/users/users.service.ts:145-158 | a member's roles are set if and only if they may be assigned and the target is a member; refused, nothing is written |
| AccessVerdicts.HoldersPassRolesOn | src/roles/roles.service.ts:210-222 | an active member may assign the roles they carry, unless a permission switched on in them is disabled |
| AccessVerdicts.CreateRoleExactly | src/roles/roles.service.ts:87-115 | the one reason a custom role is refused, over the rows: it is created exactly when the code is free and not reserved, the permissions are enabled, distinct and not platform ones, and the actor carries system_admin or all of them |
| AccessVerdicts.EditsExactly | src/roles/roles.service.ts:130-182 | the one reason an edit of all switches, or of one, is refused, over the rows; refused, nothing is written |
| AccessVerdicts.StaleEditIsWritten | src/roles/roles.service.ts:130-162 | an edit whose checks pass is written, and then answered as unauthorized exactly when the actor was judged by an entry of a tenant no longer active |
| AccessVerdicts.CreateUserExactly | src/users/users.service.ts:34-96 | the one reason an account is not enrolled, over the rows; refused, nothing is written |
| AccessVerdicts.RequestTenantExactly | src/tenancy/tenancy.controller.ts:34-43 | a tenant is founded exactly by an active member who carries system_admin in the token's tenant, under a free slug |
| AccessVerdicts.AnswersStick | src/access/access.service.ts:18-27 | an answer stays the answer until its entry is dropped, whatever is written to the tables |
| SeededRuns.RunSeeded | src/database/seed.service.ts:60-107 | after every run with a boot in it the permissions, the built-in roles and the administrators' rows are in force |
| SeededRuns.AdminsPass | src/common/constants.ts:54-66 | after every such run an active member who carries `admin` passes the guard for each of the tenant administrator's permissions, unless its switch was turned off by an edit of that role |
| RoleEffects.UpdateRoleRows | src/roles/roles.service.ts:117-128 | the one reason a change is refused; accepted, the role has the code and flag asked for, each as before when absent, and no other row changes |
| RoleEffects.UpdateRoleEffect | src/roles/roles.service.ts:117-128 | switched off, the role counts for nobody and its holders have what their other roles give; switched on, they have its code and permissions again; other tenants notice nothing |
| RoleEffects.RemoveRoleEffect | src/roles/roles.service.ts:184-189 | the role goes with its switches and assignments and nothing else does; its holders have what their other roles give |
| RoleEffects.CreateRoleEffect | src/roles/roles.service.ts:87-115 | the new role has the code and exactly the switches asked for, on; no one's access changes |
| AccountEffects.RegisterVerdict | src/auth/auth.service.ts:172-192 | the one reason a registration fails |
| AccountEffects.RegisterEffect | src/auth/auth.service.ts:172-192 | whoever registers has the default role in the default tenant, which is created when missing, and nothing else; nobody else's access changes |
| AccountEffects.CreateTenantEffect | src/tenancy/tenancy.service.ts:42-65 | the founder is system_admin of the new active tenant with every enabled permission, nobody else belongs to it, no other access changes; the reasons otherwise |
| AccountEffects.UpdateUserEffect | src/users/users.service.ts:124-143 | the email changes and nothing else, no one's access does; the reasons otherwise |
| AccountEffects.SeedAdminEffect | src/database/seed.service.ts:31-56 | the configured administrator has an active account and, in the default tenant, every enabled permission; nobody else's access changes |
| AccountEffects.CreateUserRows | src/users/users.service.ts:53-89 | the account row has that email and is active, one membership and exactly the granted assignments are added, every other row stays |
| AccountEffects.SetRolesRows | src/users/users.service.ts:145-158 | exchanges that member's assignments and no other row |
| AccountEffects.RemoveUserRows | src/users/users.service.ts:160-179 | soft: one flag; hard: the membership and its assignments, and with the last membership the account and whatever was still assigned to it |
| AccountEffects.RemoveTenantRows | src/tenancy/tenancy.service.ts:81-91 | soft: one flag; hard: exactly the rows that name the tenant or one of its roles |
| AccessModel.ViewFrame | src/access/access.service.ts:23-67 | what a person's view depends on, and nothing else |
| AccessCoherence.CodesTellAdmins | src/access/access.service.ts:49-52 | in sound tables the code in the role list is the structural test |
| AccessCoherence.RoleWriteKeeps | src/roles/roles.service.ts:283-289 | a change to one tenant's role with that tenant's entries dropped keeps the cache right |
| AccessCoherence.EnrollKeeps | src/users/users.service.ts:53-89 | enrolling needs no invalidation: no entry can exist |
| AccessCoherence.CreateTenantKeeps | src/tenancy/tenancy.service.ts:42-65 | creating a tenant needs no invalidation |
| AccessCoherence.RemoveUserKeeps | src/users/users.service.ts:160-179 | dropping one entry is enough, even when the account is deleted |
| AccessCoherence.SeedAdminKeeps | src/database/seed.service.ts:31-56 | the administrator is enrolled after the entries are dropped |
| AccessTheorems.StepKeeps | src/access/access.service.ts:18-88 | every operation keeps the tables sound and the cache coherent |
| AccessTheorems.CacheIsCoherent | src/access/access.service.ts:18-88 | after every run, an answer about an active tenant is what the tables say |
| AccessTheorems.AnswersAreCurrentExactlyWhen | src/access/access.service.ts:18-27 | and exactly then, or when nothing is cached |
| AccessTheorems.PlatformPermissionsAreConfined | src/roles/roles.service.ts:240-252 | in every run only system_admin has a `tenant.*` permission on, and nobody is answered one without the role |
| AccessTheorems.PlatformGuardsAgree | src/common/guards/permissions.guard.ts:15-31 | after every run the role guard and the permission guard of a `tenant.*` endpoint let exactly those through who are answered system_admin |
| AccessTheorems.AdminTestsAgree | src/roles/roles.service.ts:211 | the code test on an answer agrees with the structural test on the tables |
| AccessTheorems.CodeIsTheAdminRole | src/roles/roles.service.ts:307-315 | the code system_admin belongs to the built-in role alone |
| Delegation.GrantsUnderCeiling | src/roles/roles.service.ts:240-252 | what is granted without system_admin lies under the tenant's ceiling |
| Delegation.AnswerUnderCeiling | src/roles/roles.service.ts:210-222 | so does every cached answer actors are judged by |
| Delegation.OrdinaryStep | src/roles/roles.service.ts:87-252 | no operation by an actor without system_admin, tenant creation behind its guards included, raises a ceiling or makes a holder |
| Delegation.CeilingHolds | src/users/users.service.ts:34-158 | after any ordinary run nobody is answered more than the ceiling their tenant had, not even from entries of a tenant deleted on the way (only an entry left from a tenant that was gone before is exempt) |
| Delegation.WritesNoneForGone | src/access/access.service.ts:18-72 | no ordinary operation writes an entry about a tenant that does not exist |
| PermissionMatrix.MatrixTellsTheTruth | src/roles/roles.service.ts:51-85 | an entry is configurable exactly when pressing it is carried out; it flips that entry only; otherwise it is forbidden |
| PermissionMatrix.MatrixIsComplete | src/roles/roles.service.ts:51-85 | an active member gets, for any role in scope, an entry for every enabled permission and no other, which says whether the permission is granted; the reasons otherwise |
| PermissionMatrix.EditRows | src/roles/roles.service.ts:147-180 | an accepted bulk edit leaves a row for every enabled permission, on exactly for the selected; an accepted switch writes one row; every other row stays |
| PermissionMatrix.SwitchKeepsAccess | src/roles/roles.service.ts:164-182 | a switch towards the selection never costs the actor a selected code, even in a role the actor holds |
| PermissionMatrix.BulkRefinesSwitches | src/roles/roles.service.ts:130-182 | an accepted bulk edit grants exactly the selection; any covering order of single switches is accepted step by step and gives everybody the same view |
| PermissionMatrix.SameRowsExactlyWhen | src/roles/roles.service.ts:147-161 | the rows themselves agree exactly when every enabled permission had a row or was switched |
| Staleness.AnswersWereTrue | src/access/access.service.ts:18-72 | with reads, writes, changes and invalidations interleaved, a cached answer was true less than 300 s plus the longest lookup ago |
| Staleness.LookupsWereTrue | src/access/access.service.ts:23-67 | a computed answer was true when it was read |
| Staleness.RefusalReachesTheCache | src/tenancy/tenancy.service.ts:81-91 | a deactivation reaches the cache within that bound without any invalidation |
| Staleness.OverlappingFillIsStale | src/access/access.service.ts:69-78 | the bound is tight: a lookup overlapping a change and its invalidation is stale that long |
| AccessServices.AccessService.GetUserAccess | src/access/access.service.ts:18-72 | answers from the member's key in Redis, or computes freshly and stores the answer there for exactly 300 s; on the members' view of the keys this is the model's lookup |
| AccessServices.AccessService.InvalidateUser | src/access/access.service.ts:74-80 | deletes one key, or scans for the user's pattern: the members' view loses exactly the entries of that member, or of that user, and no key outside the access prefix changes |
| AccessServices.AccessService.InvalidateTenant | src/access/access.service.ts:82-84 | scans for the tenant's pattern: exactly the entries of the tenant's members disappear from the view, and no key outside the access prefix changes |
| AccessServices.AccessService.InvalidateAll | src/access/access.service.ts:86-88 | scans for the prefix: no member has an entry any more, and no key outside the access prefix changes |
| AccessServices.RolesService.AssertRolesAssignable | src/roles/roles.service.ts:191-222 | the verdict that AssignableExactly spells out, and the cache entry the lookup leaves |
| AccessServices.RolesService.Create | src/roles/roles.service.ts:87-115 | checks in order, the rows, the invalidation; keeps the cache coherent |
| AccessServices.RolesService.Update | src/roles/roles.service.ts:117-128 | the same for definitions (UpdateRoleRows, UpdateRoleEffect) |
| AccessServices.RolesService.Remove | src/roles/roles.service.ts:184-189 | the same for deletion with its cascades |
| AccessServices.RolesService.SetPermissions | src/roles/roles.service.ts:130-162 | the loop of upserts writes one flag per enabled permission |
| AccessServices.RolesService.UpsertAll | src/roles/roles.service.ts:147-159 | the loop on its own |
| AccessServices.RolesService.SetPermission | src/roles/roles.service.ts:164-182 | one flag, with its checks |
| AccessServices.RolesService.GetPermissionMatrix | src/roles/roles.service.ts:51-85 | one entry per enabled permission |
| AccessServices.UsersService.Create | src/users/users.service.ts:34-96 | enrols a new or existing account, with every refusal in source order |
| AccessServices.UsersService.Update | src/users/users.service.ts:124-143 | the account row and all its entries |
| AccessServices.UsersService.SetRoles | src/users/users.service.ts:145-158 | replaces the assignments and drops one entry |
| AccessServices.UsersService.Remove | src/users/users.service.ts:160-179 | soft or hard removal, the account with its last membership, and then the marker: the marker keys change exactly as the revocation of the user changes the markers |
| AccessServices.UsersService.RegisterVerifiedUser | src/auth/auth.service.ts:172-192 | self-registration into the default tenant |
| AccessServices.TenancyService.Create | src/tenancy/tenancy.service.ts:42-65 | tenant, membership and system_admin assignment, whoever asks |
| AccessServices.TenancyService.Remove | src/tenancy/tenancy.service.ts:81-91 | deletion with cascades, or deactivation once, and then the marker: the marker keys change as the revocation of the tenant changes the markers; no access entry changes |
| AccessServices.TenancyService.BootstrapDefaultTenant | src/tenancy/tenancy.service.ts:126-135 | found, or created |
| AccessServices.RolesGuard.CanActivate | src/common/guards/roles.guard.ts:15-31 | the verdict that RolesGuardExactly spells out, and the cache entry its lookup leaves |
| AccessServices.PermissionsGuard.CanActivate | src/common/guards/permissions.guard.ts:15-31 | the verdict that PermissionsGuardExactly spells out, and the cache entry |
| AccessServices.TenancyController.Create | src/tenancy/tenancy.controller.ts:34-43 | both guards in order, then the service; the operation that runs are made of, coherence kept |
| AccessServices.SeedService.SeedAccessModel | src/database/seed.service.ts:60-107 | the loops compute the seed |
| AccessServices.SeedService.OnApplicationBootstrap | src/database/seed.service.ts:20-58 | seed, drop all entries, then the administrator; the system role it looks up is sure to exist |
| RefreshRotation.EachTokenIsRotatedOnce | src/auth/auth.service.ts:145-158 | at most one refresh of a token ever wins |
| RefreshRotation.OneLiveTokenPerLogin | src/auth/auth.service.ts:124-158 | at every moment a login has at most one unrevoked token a client may hold, crashes included |
| RefreshRotation.EveryLoginKeepsOneToken | src/auth/auth.service.ts:124-158 | and exactly one until a logout, clean-up or deletion |
| RefreshRotation.LosersAreRevoked | src/auth/auth.service.ts:149-155 | in every run, a stored replacement that no client was given is unrevoked if and only if its refresh is still in flight or died holding it |
| RefreshRotation.AtRestOneTokenPerLogin | src/auth/auth.service.ts:124-170 | when no refresh died holding a replacement and none is in flight, a login has at most one unrevoked token at all |
| RefreshRotation.CrashLeavesAnOrphan | src/auth/auth.service.ts:139-144 | a crash after storing the replacement leaves a second one, which no client holds |
| RefreshRotation.CleanupSparesUsableTokens | src/auth/auth.service.ts:281-286 | clean-up never deletes a usable token |
| RefreshHistory.FamilyKeepsItsLogin | src/auth/auth.service.ts:137-144 | in every run, every stored token and every row a refresh works on has the user and tenant of the login that opened its family |
| RefreshHistory.TokensLiveAsIssued | src/auth/auth.service.ts:250-258 | a token expires its configured life after it was stored, by a login or by a refresh |
| RefreshHistory.SuccessorsAreRecorded | src/auth/auth.service.ts:145-148 | a stored token names a successor exactly when a refresh of it won with that one |
| RefreshHistory.RowsChangeOnlySo | src/auth/auth.service.ts:145-170 | a step revokes a row now or not at all, and changes nothing else about it but, then, its successor |
| RefreshHistory.RowsGoExactlyWhen | src/auth/auth.service.ts:281-286 | a row goes exactly by clean-up 30 days after it expired or was revoked, or with its user or tenant |
| Revocation.AcceptedExactlyWhen | src/auth/jwt.strategy.ts:22-43 | a token is accepted until it expires or its user or tenant is revoked in a later second, whatever overwrites the marker |
| Revocation.RevocationLastsExactlyWhen | src/auth/auth.service.ts:274-279 | revoked tokens stay rejected in every run if and only if the marker lives at least the token lifetime minus one second (or tokens live one second at most) |
| Revocation.RefreshedTokenSurvivesExactlyWhen | src/auth/auth.service.ts:139-157 | the access token a refresh returns works exactly when signing and marker fell into one second |
| Markers.MarkShows | src/auth/auth.service.ts:274-279 | setting the key of a user or tenant carries out the revocation on the markers that Redis shows; a refused lifetime sets nothing |
| Markers.ReadShows | src/auth/jwt.strategy.ts:27-41 | comparing `iat` with the number under the key is the test on the marker |
| Revocation.UnitsThatOutlive | src/common/utils/parse-ttl.ts:6-12 | in the signing library's notation (sign, fraction, blanks, long and short units, any case) that holds exactly for negative durations, for seconds and milliseconds, and when less than two seconds are left unread: the fraction after a unit spelled `m`, `h` or `d`, the whole amount after any other minute or longer unit |
| Revocation.WholeAmountsThatOutlive | src/common/utils/parse-ttl.ts:6-12 | a positive whole number of minutes or longer units passes exactly when the unit is spelled `m`, `h` or `d` |
| Durations.ParsedTtl | src/common/utils/parse-ttl.ts:6-12 | for any text that starts with digits, whatever follows: their value, signed, times the factor of the last character |
| Durations.TtlOf | src/common/utils/parse-ttl.ts:6-12 | on a duration in the notation of the signing library: its whole part times the factor of its spelling, or NaN without a whole part |
| Auth.AuthService.Login | src/auth/auth.service.ts:223-264 | a new family with one handed-out token |
| Auth.AuthService.FindUsable | src/auth/auth.service.ts:124-137 | which tokens a refresh starts from, and one refusal per reason: unknown or revoked, expired, user inactive, not a member |
| Auth.AuthService.IssueReplacement | src/auth/auth.service.ts:139-144 | the replacement row and the access token, both for the owner of the family, that is for the user and tenant of its login |
| Auth.AuthService.Rotate | src/auth/auth.service.ts:145-148 | the conditional update wins exactly on an unrevoked row |
| Auth.AuthService.RevokeReplacement | src/auth/auth.service.ts:149-155 | the losing branch |
| Auth.AuthService.Refresh | src/auth/auth.service.ts:124-158 | with any steps of other requests, on tokens and markers, at each of its awaits: wins exactly when its token is still unrevoked at the update, otherwise leaves nothing usable; tokens and markers end where these steps and its own have led |
| Auth.AuthService.Logout | src/auth/auth.service.ts:160-170 | revokes the token and the user's access tokens, silent otherwise |
| Auth.AuthService.Revoke | src/auth/auth.service.ts:274-279 | sets the key to the current second for the token's lifetime, or fails when the lifetime is not positive; the markers shown change accordingly |
| Auth.AuthService.CleanupExpiredTokens | src/auth/auth.service.ts:281-288 | deletes what expired or was revoked 30 days ago, and counts it |
| Auth.AuthService.Validate | src/auth/jwt.strategy.ts:22-43 | reads both keys; the strategy's verdict over the markers they show |

## Left out

- Consumer.RabbitmqConsumer.Arrive: takes only messages whose identity is stable (or that can never be read); the others, which change their identity on a hop, are the subject of IdentityIsStable and UnpinnedChanges.
- Consumer.RabbitmqConsumer.NothingLost: speaks of those messages only.
- Consumer.RabbitmqConsumer.ExhaustedCopyReturns: one slot handles the waiting messages one after the other; no other slot acts meanwhile.
- PipelineOrphans.OrphaningCanLose: all copies of the event carry one routing key and can be parsed, as copies of a published event do; under a second key the event has a second lock and may survive.
- Consumer.RabbitmqConsumer.Publish: an empty routing key is not modelled; the repository publishes under constant keys.
- Idempotency.IdempotencyService.MarkProcessed: the keys show the machine's flags and locks for event ids free of ':' only, as generated ids are; KeysAreInjective says what else would collide.
- Redis.PatternsAreExact: ids are free of ':' and glob characters, as generated ids are; glob classes and escapes are not modelled.
- Delegation.CeilingHolds: seeding is excluded; it is run by the deployment and restores built-in rows that administrators had switched off.
- A channel lost in the middle of a message while the worker goes on handling it; the machine's worker stops when its delivery is requeued.
- `JSON.stringify` and `JSON.parse` on access records are parameters that undo each other; keys under the access prefix are written by the access service alone, and entries expire between calls, not within one.
- Durations are computed in real numbers, not in doubles; texts outside the library's notation, or longer than 100 characters, make signing fail, so that there is no token.
- Messages.ReadingOrder: an id or key that is not a text is read as absent; the code takes a number or an object as it stands.
- Consumer.RabbitmqConsumer.Capture: a row whose payload is null is read as the whole envelope (OutboxRowComesBack) and does not enter the class this way.
- JSON values stand for their texts, and a text carries what parsing it yields; the parser itself and `publishedAt` are not modelled, and a body that is not JSON never enters the consumer class.
- AccessVerdicts: an actor judged by a cached entry of an inactive or deleted tenant is excluded by `Current`; AnswersAreCurrentExactlyWhen and StaleEditIsWritten are about those.
- A foreign `x-retry-count` that is negative or not a number.
- `getUserAccess` reads membership, assignments and permissions in separate queries; the model reads them at one moment.
- Computing a marker's second and storing it is one step, so a slow writer that overwrites a later second is not modelled.
- Concurrent boots of several instances; the global role codes stay unique because only one seed runs at a time.
- User.active is only set, never cleared, by the modelled operations; phone numbers, names and password hashes are not part of the rows.
- The events user creation writes to the outbox, and their transport to the broker.
- Sorting of the role and permission lists (they are sets here), and the display fields of the matrix.
- Connection handling and reconnect timers, the throttler store, verification codes, the slug cache, request context, controllers, DTO validation, configuration and health checks: plumbing, or easy members.
- bcrypt, token signing and hashing: a hash is injective and a plain token unguessable, so a token is the number of its row.
