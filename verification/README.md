# A verified model of maos-core

maos-core hands jobs (invocations) to actors, moves deployments of actor
configurations through review and publication, and keeps a Kubernetes namespace
and a database schema in line with what was published. This project models the
parts of it whose correctness rests on several functions working together, and
proves what they keep over every run.

`dafny verify dfyconfig.toml` checks everything. There is one module per
component:

| module | component |
|---|---|
| `Invocations` | the invocations table: insert, claim with SKIP LOCKED, finalise |
| `Dispatcher`, `PollQueue`, `Polling` | the wake-up channels, the long-polling protocol over them, and one poll in time |
| `DeploymentTables`, `Publishing` | deployments, suites and configs, the statements on them, and every run of requests and publish workers |
| `MigrationJobs` | the Kubernetes migration jobs a deployment waits for |
| `ConfigServing`, `Version` | which config an actor is served, and the version strings it depends on |
| `Reconciler` | the Kubernetes controller's deployment-set reconciliation |
| `Migrator` | the schema migrator and its ledger |
| `Notifier`, `StartStop` | topic subscriptions over a connection that comes and goes, and the start/stop lock |
| `TokenCache` | the API token cache and the authentication middleware |
| `Tokenizer` | the command-line tokenizer |
| `Common` | option and result types |

Objects the program changes in place are classes whose methods are proved
against functions of their old state; concurrent protocols are state machines
whose actions are those functions. A call to the database, the cluster, the
fetcher or the listener either succeeds or fails freely; ghost counters called
`faults` count the failures that the state does not explain, so that a contract
can say what happens when there are none. Clocks and random choices are
arbitrary values.

## What the proofs found

- A poller can be left asleep beside an available job exactly when more pollers
  of one queue may at one time be between an empty query and the select of
  `WaitFor` than its channel has slots, which is 32. Pollers blocked in the
  select do not count: a send goes straight to one of them
  (`PollQueue.NoLostWakeUp`).
- Jobs of a queue are handed out oldest first exactly as long as no claiming
  transaction is rolled back (`Invocations.ClaimOrder`).
- The comment on `Migrate` calls its options optional. A down run without them
  from version 2 or later panics after the SQL has run and before the ledger is
  written (`Migrator.NilOptionsPanicFromVersionTwo`; migrate/maos_migrate.go:141
  against :199). From a consistent database and without
  faults, an up run that is no dry run and whose options are accepted fails
  exactly when it selects nothing while there is no ledger table to insert into
  (`Migrator.UpSucceedsUnlessNothingSelected`,
  `Migrator.UpSelectingNothingFails`). A down run by a binary older than the
  ledger leaves a gap unless it removes nothing or everything it knows
  (`Migrator.DownFromNewerLedger`).
- Publishing is blocked for good exactly when a worker has vanished from its
  deploying row, because its failure write failed or its process died
  (`Publishing.BlockedExactlyWhenAbandoned`; three steps reach such a state,
  `Publishing.VanishBlocks`). Otherwise exactly the drafts and the deployments in
  review can still be published (`Publishing.PublishableExactly`).
- A migration job is judged by the first telling sight of it, so a job whose
  first pod failed is failed even if its retry succeeds
  (`MigrationJobs.RetriesComeTooLate`).
- A second reconciliation of the same set does nothing, and without faults it
  succeeds exactly when no kept deployment runs under an account named like a
  marked deployment the set drops; a namespace where it fails exists, and none
  whose deployments all run under their own accounts
  (`Reconciler.ReconcileTwice`, `Reconciler.DroppingNamespace`,
  `Reconciler.OwnAccountsNeverDrop`).
- A subscription has one Unlisten. If it fails, the subscription stays in its
  list for ever (`Notifier.FailedUnlistenSticks`, `Notifier.StuckForEver`). A
  waiting connection listens on a topic nobody subscribes to exactly when the
  opening of its session listened on it after its last subscription was given
  back (`Notifier.StaleExactly`).
- A service that failed to connect ignores every Start until somebody calls Stop
  (`StartStop.FailedConnectIsDead`, `StartStop.DeadUntilStopped`).
- The staleness of the token cache is bounded if and only if its lifetime is not
  zero, since a zero lifetime means for ever
  (`TokenCache.BoundedExactlyWithLifetime`); and a token is accepted until the
  end of the second in which it expires (`TokenCache.Decision`).

## Model

| member | source | states |
|---|---|---|
| Invocations.InvocationTable.Insert | invocation/manager.go:140-161 | a job for a known actor gets the next id, stores its payload under the actor's queue, starts available at the fixed priority and is announced under its queue; an unknown actor inserts and announces nothing |
| Invocations.InvocationTable.SelectForUpdate | dbaccess/dbsqlc/invocation.sql.go:39-56 | the locking SELECT takes only available, unlocked rows of exactly this queue, at most as many as allowed, and passes such a row over only when the limit is reached by rows before it in (priority, id) order |
| Invocations.InvocationTable.GetAvailable | dbaccess/dbsqlc/invocation.sql.go:39-67 | every job handed out was available, unlocked and of exactly this queue, none such was passed over while room was left or for a later one, and just the jobs handed out are running, attempted by the caller at this time |
| Invocations.InvocationTable.ReturnInvocation | invocation/manager.go:381-477 | a report is accepted exactly from the actor that last attempted a running job; it stores the reported result or errors and the time in that row, announces it, and touches nothing otherwise |
| Invocations.PickedAreFirst | dbaccess/dbsqlc/invocation.sql.go:39-63 | the locking SELECT returns as many free rows as allowed, and every row it returns precedes every one it leaves in (priority, id) order |
| Invocations.PickedTakesFirst | dbaccess/dbsqlc/invocation.sql.go:39-56 | the rows the locking SELECT is defined to return satisfy the claim rule stated on the rows alone |
| Invocations.ClaimedAtMostOnce | dbaccess/dbsqlc/invocation.sql.go:39-67 | over every run of overlapping claims, commits, rollbacks and reports: claims in progress hold disjoint available rows of their own queues, every job is granted at most once, attempted_by is empty exactly while available, and exactly one of result and errors is set once final |
| Invocations.StepEvolves | dbaccess/dbsqlc/invocation.sql.go:170-244 | a row changes exactly when a claim on its own queue that holds it commits, and becomes its claimer's, or when its one attempter reports, and stores what was reported |
| Invocations.RowsEvolve | dbaccess/dbsqlc/invocation.sql.go:170-244 | between any two points of a run a claimed row keeps its claimer, and a finalised row never changes |
| Invocations.RowsAreExplained | dbaccess/dbsqlc/invocation.sql.go:39-67 | over every run a row's queue and payload are those of the step that inserted it, its attempter and time those of a commit of a claim on that queue holding it, and its result or errors those its attempter reported |
| Invocations.OrderHolds | dbaccess/dbsqlc/invocation.sql.go:47-56 | without rollbacks every claimed or locked job of a queue precedes every free one |
| Invocations.AbortBreaksOrder | dbaccess/dbsqlc/invocation.sql.go:47-56 | a reachable state in which a rolled-back claim leaves an older job free behind a younger claimed one |
| Invocations.ClaimOrder | dbaccess/dbsqlc/invocation.sql.go:39-63 | claims follow the order in every reachable state if and only if no claim is rolled back |
| Dispatcher.Dispatcher.constructor | invocation/dispatcher.go:37-42 | a new dispatcher is open and has no channel |
| Dispatcher.Dispatcher.Listen | invocation/dispatcher.go:62-65 | makes sure an open dispatcher has a channel for the id, keeping what is buffered; fails exactly when closed |
| Dispatcher.Dispatcher.Dispatch | invocation/dispatcher.go:106-122 | appends to the id's channel exactly if it is open and holds fewer than 32 payloads, and otherwise drops the payload without an error |
| Dispatcher.Dispatcher.TryWait | invocation/dispatcher.go:77-95 | a wait takes the oldest payload, times out, or reports the closing, whichever of these is ready, and creates the channel first |
| Dispatcher.Dispatcher.Close | invocation/dispatcher.go:150-162 | closing removes every channel, once and for all |
| Dispatcher.StepKeepsFifo | invocation/dispatcher.go:77-147 | every call keeps each channel a bounded first-in first-out queue |
| Dispatcher.BoundedFifo | invocation/dispatcher.go:77-147 | over every history each channel is a first-in first-out queue of at most 32: accepted is received followed by buffered |
| PollQueue.InsertCounts | invocation/manager.go:140-161 | an insert adds one available job together with one announcement to come |
| PollQueue.NotifyCounts | invocation/manager.go:157-161 | issuing a notification changes no count |
| PollQueue.DeliverCounts | invocation/dispatcher.go:106-122 | with nobody blocked, a delivered notification becomes a token unless nobody listens or the buffer is full |
| PollQueue.HandOffCounts | invocation/dispatcher.go:112-118 | with a poller blocked, a delivered notification sends one of them back to query and leaves no token |
| PollQueue.HandOffIsSendAndReceive | invocation/dispatcher.go:83-118 | handing a payload to a blocked poller is a send and a receive on its empty channel |
| PollQueue.ArriveCounts | invocation/manager.go:494-497 | a new poller listens before its first query and loses no token |
| PollQueue.ClaimCounts | invocation/manager.go:501-510 | a query that finds a job uses up one available job and one checking poller |
| PollQueue.FindNothingCounts | invocation/manager.go:512-515 | a poller goes on to wait, or gives up, only after a query that found its queue empty |
| PollQueue.TakeCounts | invocation/dispatcher.go:83-88 | a poller that enters the select with a token buffered takes one and queries again |
| PollQueue.BlockCounts | invocation/dispatcher.go:83-93 | a poller blocks only on an empty buffer |
| PollQueue.TimeOutCounts | invocation/manager.go:517-522 | a poller whose timer fires, on its way in or blocked, queries again before it answers |
| PollQueue.StepKeepsCovered | invocation/manager.go:479-525 | with at most 32 on their way into the select, after every step a blocked poller faces an empty buffer, and either every available job has a wake-up of its own or nobody is blocked and every entering poller has a token |
| PollQueue.InvHolds | invocation/manager.go:479-525 | the same over every run, for every queue |
| PollQueue.OneTooManyIsForgotten | invocation/dispatcher.go:112-118 | with 33 pollers held up before the select a run exists that ends with one blocked beside an available job and no wake-up pending |
| PollQueue.NoLostWakeUp | invocation/manager.go:479-525 | no reachable state has a waiting poller and an available job without a wake-up pending, if and only if at most 32 pollers of a queue are at one time between an empty query and the select, however many are blocked in it |
| Polling.WaitSeconds | invocation/manager.go:494 | ten seconds by default, otherwise the wish clamped to 1 to 60 |
| Polling.Surroundings.QueryTable | invocation/manager.go:482-492 | one query, entered in the history with its time and answer |
| Polling.Surroundings.WaitFor | invocation/dispatcher.go:77-95 | a wait ends by a token, the closing, or exactly at its timer, and is entered in the history with its ending |
| Polling.GetNextInvocation | invocation/manager.go:479-525 | a poll asks first, waits only after an empty answer, asks again at once after every token and, for the last time, after the timer; it returns a job exactly if the last thing was a query that found it, fails exactly if that was a failed query or a wait ended by the closing, and otherwise answers 404 strictly within a second of its waiting time, right after an empty query, whatever stale tokens arrive |
| DeploymentTables.LatestExists | dbaccess/dbsqlc/deployment.sql.go:51-59 | ORDER BY created_at DESC, id DESC has a first row on every nonempty set |
| DeploymentTables.NewDraft | dbaccess/dbsqlc/deployment.sql.go:237-291 | creating or cloning adds one draft as requested with a new suite of its own and configs in the requester's name, and leaves every row that was there as it is |
| DeploymentTables.InitialContentIs | dbaccess/dbsqlc/deployment.sql.go:269-281 | a new row copies the actor's newest config in the suites copied from, else its newest anywhere, else is empty |
| DeploymentTables.NewSuiteListing | dbaccess/dbsqlc/deployment.sql.go:237-291 | a new suite lists exactly the configurable actors, each with its content from the active suites, else its latest anywhere, else an empty object |
| DeploymentTables.ClonePreservesListing | dbaccess/dbsqlc/deployment.sql.go:12-67 | a clone lists every configurable actor of its source with the content the source lists |
| DeploymentTables.Store.UpdateDeployment | admin/deployment_manage.go:262-298 | only drafts change, only in name and deployment reviewers, absent values keep what is there, and a name in use is an error |
| DeploymentTables.Store.SubmitDeployment | admin/deployment_manage.go:300-361 | a draft with deployment reviewers and a suite becomes reviewing, anything else is refused unchanged |
| DeploymentTables.Store.RejectDeployment | dbaccess/dbsqlc/deployment.sql.go:496-507 | only one of the deployment's own reviewers rejects it, and only while it is reviewing |
| DeploymentTables.Store.DeleteDeployment | dbaccess/dbsqlc/deployment.sql.go:124-128 | exactly drafts are deleted |
| DeploymentTables.Store.PublishDeployment | dbaccess/dbsqlc/deployment.sql.go:610-644 | done exactly if a user is named, the row is a draft or in review and no row is deploying, with the reason for each refusal; then just this row becomes deploying |
| DeploymentTables.Store.FinishPublishing | admin/deployment_manage.go:643-709 | the closing transaction activates the deployment's suite, retires the deployed deployment and marks this one deployed, or changes nothing; without a fault it fails only on a deployment that is not deploying or has no suite |
| DeploymentTables.Store.UpdateLastError | dbaccess/dbsqlc/deployment.sql.go:661-667 | the unconditional failure write: the row is failed and holds the error |
| DeploymentTables.Store.UpdateConfig | dbaccess/dbsqlc/config.sql.go:291-316 | a config changes exactly when its suite was never deployed and the updater created it or reviews its deployment; given content and minimum version arrive, NULL arguments keep what is there |
| Publishing.StatusMoves | dbaccess/dbsqlc/deployment.sql.go:448-644 | which action takes which edge of the status graph: no other edge exists, each edge has one kind of action, and only drafts disappear |
| Publishing.FinishStep | admin/deployment_manage.go:643-709 | the closing transaction keeps suites in step with deployments |
| Publishing.StepKeepsSingle | dbaccess/dbsqlc/deployment.sql.go:610-644 | at most one deployment deploying and at most one deployed after every step |
| Publishing.StepKeepsWorkers | admin/deployment_manage.go:585-641 | every live worker's deployment is deploying, at most one worker is live, and only migrated deployments reach their closing transaction |
| Publishing.StepKeepsInv | admin/deployment_manage.go:391-710 | every request and every worker step, failing at any point, keeps the invariant |
| Publishing.InvHolds | admin/deployment_manage.go:391-710 | the invariant holds over every run |
| Publishing.TablesStayInStep | dbaccess/dbsqlc/config_suite.sql.go:12-28 | in every reachable state at most one suite is active, and a suite is active exactly when it is the deployed deployment's |
| Publishing.WorkersAreSafe | admin/deployment_manage.go:620-630 | a live worker is the only one and finds its deployment deploying with a suite, so the dereference is safe and the failure write moves only deploying to failed |
| Publishing.DeployedOnlyAfterMigrating | admin/deployment_manage.go:630-678 | every deployed or retired deployment had a worker that read the rows its suite listed, and later saw the new job of every migratable actor among them succeed, each with usable content |
| Publishing.LoadedWhen | admin/deployment_manage.go:630-637 | the configs a worker migrates are the rows its suite listed when it read them |
| Publishing.FinalStatusesStay | dbaccess/dbsqlc/deployment.sql.go:496-577 | rejected, failed and retired deployments never change again |
| Publishing.ServedConfigsAreFrozen | dbaccess/dbsqlc/config.sql.go:291-315 | once a config can be served, its content and minimum version are the same in every later state, and it can be served for ever |
| Publishing.NewDraftCopiesDeployed | dbaccess/dbsqlc/deployment.sql.go:258-287 | in every reachable state a new draft lists what the deployed deployment's suite lists, with the same contents |
| Publishing.AbandonedDeployingBlocks | admin/deployment_manage.go:600-609 | a row left deploying without a worker stays so, and no deployment is ever published after it |
| Publishing.OnlyVanishAbandons | admin/deployment_manage.go:596-609 | a step leaves a deploying row without its worker exactly when that worker vanishes |
| Publishing.AbandonedByVanishing | admin/deployment_manage.go:596-609 | over every run the abandoned rows are exactly those whose worker vanished |
| Publishing.WorkerCanGiveUp | admin/deployment_manage.go:596-609 | from every state with a live worker, failing and reporting it leaves nothing deploying; no other status changes |
| Publishing.CanPublish | admin/deployment_manage.go:391-427 | from every state with nothing deploying, a new draft can be made under an unused name and published, by requests the handlers accept |
| Publishing.PublishableNow | dbaccess/dbsqlc/deployment.sql.go:610-644 | in every reachable state with nothing deploying, publishing is open to every draft, every deployment in review and nothing else |
| Publishing.PublishableExactly | admin/deployment_manage.go:391-427 | in every reachable state a deployment can still be published by some continuation if and only if it is a draft or in review and no row is abandoned |
| Publishing.NeverWaitsAgain | dbaccess/dbsqlc/deployment.sql.go:448-644 | once published or rejected a deployment is never a draft or in review again |
| Publishing.BlockedExactlyWhenAbandoned | dbaccess/dbsqlc/deployment.sql.go:610-644 | no continuation of a run publishes anything, if and only if a deploying row has no worker, if and only if some worker vanished |
| Publishing.VanishBlocks | admin/deployment_manage.go:596-609 | a legal run, of requests the handlers accept, that ends blocked for good |
| MigrationJobs.Jobs.Create | k8s/controller.go:382-387 | creating a job records what it runs under its name and fails on a name in use |
| MigrationJobs.ReadAll | k8s/controller.go:284-318 | one round takes out exactly the jobs seen to succeed or fail, success first, and skips unreadable ones |
| MigrationJobs.CreateJobs | k8s/controller.go:264-271 | the jobs created are those of a prefix of the list, all of it, each running its own migration, exactly when no call failed and every name was new and used once |
| MigrationJobs.WatchJobs | k8s/controller.go:273-326 | the polling loop ends with the verdict on the jobs, or when the context does |
| MigrationJobs.RunMigrations | k8s/controller.go:261-327 | creates the jobs in order up to the first refusal, then judges them: cancelled while one is open, failed with exactly the jobs first seen to fail, otherwise success |
| MigrationJobs.EndsOneWay | k8s/controller.go:309-317 | a job ends well, ends badly or is open, and never two of these |
| MigrationJobs.NoErrorMeansAllSucceeded | k8s/controller.go:279-326 | no error if and only if every job's first telling sight was success, and the failures reported are exactly the others |
| MigrationJobs.TimeOnlyDecides | k8s/controller.go:279-282 | a verdict other than a timeout is not changed by more time |
| MigrationJobs.RetriesComeTooLate | k8s/controller.go:309-317 | a job whose first telling sight is a failed pod never lets the migrations succeed, whatever its retries show later |
| MigrationJobs.JobNamesDiffer | k8s/controller.go:330 | two migrations share a job name only for the same actor and deployment |
| MigrationJobs.MigrationOf | admin/deployment_manage.go:726-749 | a config gives a migration exactly when it can be read, names an image and has a balanced command; the migration runs that image with the tokens of that command |
| MigrationJobs.PrepareMigrations | admin/deployment_manage.go:720-750 | one migration per migratable config, in order, each with its config's image and tokenized command, unless one of them is unreadable, names no image or has unbalanced quotes in its command |
| MigrationJobs.RunDeploymentMigrations | admin/deployment_manage.go:712-772 | without faults it succeeds exactly when no migratable config is unusable, clashes with an existing or repeated job, or has a job not seen to succeed; then each of their jobs runs its config's image and command; unusable configs stop it before any job is created |
| ConfigServing.ServesTheBest | handler/get_config.go:31-85 | the answer is the greatest compatible id of an active suite, else of a retired one, else 404 |
| ConfigServing.FaultsAreReported | handler/get_config.go:55-83 | a database fault is reported exactly when its query is reached |
| ConfigServing.TurnedAway | handler/get_config.go:18-40 | unauthorized exactly without a token, a bad version exactly with a header that spells no list of three or four 32-bit numbers, whatever the tables hold |
| ConfigServing.LeqTransitive | dbaccess/dbsqlc/config.sql.go:20 | the array order on versions is transitive |
| ConfigServing.LeqTotal | dbaccess/dbsqlc/config.sql.go:20 | the array order is total and antisymmetric |
| ConfigServing.LeqAtFirstDifference | dbaccess/dbsqlc/config.sql.go:20 | the array order is decided at the first difference, a shorter list being lower |
| ConfigServing.TierGrows | dbaccess/dbsqlc/config.sql.go:12-22 | a higher version is compatible with everything a lower one is |
| ConfigServing.UpgradingIsMonotone | handler/get_config.go:42-85 | a higher version never turns an answer into 404, never falls from the active to the retired tier, and never lowers the id within a tier |
| ConfigServing.NoVersionMatchesNoMinimum | dbaccess/dbsqlc/config.sql.go:20 | a caller without a version is served only configs without a minimum |
| ConfigServing.ServedOverRuns | handler/get_config.go:42-85 | in every run a served config belongs to a deployment that is or was deployed and keeps its content; one served from the active tier is the deployed deployment's |
| Version.SerializeActorVersion | util/version.go:8-22 | the builder loop joins the decimal forms with dots; an empty list gives nil |
| Version.DeserializeActorVersion | util/version.go:24-44 | the slice-filling loop accepts exactly three or four parsable parts |
| Version.FormatParses | util/version.go:18-40 | every 32-bit number is parsed back from its decimal form, which has no dot |
| Version.FormatIsCanonical | util/version.go:13-19 | numbers are printed without plus sign or leading zeros, with a minus sign exactly if negative, and no two alike |
| Version.SplitJoin | util/version.go:14-29 | splitting undoes joining for parts without dots |
| Version.RoundTrip | util/version.go:8-44 | parsing a printed list gives the list back exactly for three or four elements, and nil for any other length |
| Version.CanonicalForm | util/version.go:8-44 | an accepted string re-prints to a canonical form that parses to the same list, one form per list |
| Version.AcceptsExactly | util/version.go:29-43 | a string is accepted as a list exactly when it is three or four dot-separated signed numerals denoting the list's 32-bit elements |
| Version.RejectsBadPart | util/version.go:35-40 | one part that is no numeral or out of range rejects the whole string |
| Reconciler.Cluster.Create | k8s/controller.go:601-619 | creating an object fails on a name in use and otherwise adds just that object |
| Reconciler.Cluster.Update | k8s/controller.go:633-639 | updating an object fails on a missing one and otherwise replaces just that object |
| Reconciler.Cluster.Delete | k8s/controller.go:644-647 | a deletion removes just that object |
| Reconciler.Cluster.GetAccount | k8s/controller.go:627-630 | reading an account fails when it is missing |
| Reconciler.Cluster.EnsureAccount | k8s/controller.go:672-693 | an account is created unless it exists |
| Reconciler.Cluster.PutKey | k8s/controller.go:695-726 | the deployment's API key is stored under its name, whether or not one was there |
| Reconciler.Cluster.DeleteCredentials | k8s/controller.go:649-656 | what a deployment's removal takes with it |
| Reconciler.CreateDeploymentStruct | k8s/controller.go:728-799 | the mark is written into the caller's label map, and the deployment is built on that map |
| Reconciler.PutDeployment | k8s/controller.go:601-642 | a listed deployment is updated under the account it has and a new one created under its own, with its key; fails without a fault only on a clash with the listing or a missing account; deployments under their own accounts stay so |
| Reconciler.PutObject | k8s/controller.go:883-936 | a listed object is updated and an unlisted one created |
| Reconciler.PutService | k8s/controller.go:500-513 | the service under its effective name, with the labels as they are after the deployment |
| Reconciler.PutIngress | k8s/controller.go:515-526 | the ingress, likewise, with the entry's host and limit, and as its backend the service name if given, else the entry's name, at the first port |
| Reconciler.PutEndpoints | k8s/controller.go:500-526 | service and ingress in place, or a clash with the listing |
| Reconciler.ProcessOne | k8s/controller.go:487-527 | one entry puts exactly its own objects in place, its ingress routed to its own service and pods, or fails with a reason; deployments under their own accounts stay so either way |
| Reconciler.EntryIsRouted | k8s/controller.go:801-863 | once an entry with a service and an ingress is in place, the ingress's backend is a service the entry put there, its port is one of that service's, and the service selects the pods of the entry's deployment |
| Reconciler.PlaceNext | k8s/controller.go:487-527 | one more entry in place, or it clashes with what was listed and made before it |
| Reconciler.PlaceEntries | k8s/controller.go:487-527 | all entries in place, or one that is not accepted |
| Reconciler.ProcessDeploymentSet | k8s/controller.go:479-529 | the whole set in place with the accounts it makes, and what the listing had and the set does not want; without faults it succeeds exactly when the set is not refused |
| Reconciler.DeleteKind | k8s/controller.go:531-557 | deletions go on past failures and remove only what they were given |
| Reconciler.DeleteObsoleteResources | k8s/controller.go:531-557 | all three kinds; without faults exactly the accounts of the deployments that went go with them |
| Reconciler.UpdateDeploymentSet | k8s/controller.go:141-160 | on success the namespace is the old one with the asked objects put in and obsolete marked ones gone, every name holds what the last entry using it says, the ingress of an entry with a service, its names used by no later one, is routed to its own pods, and without faults its accounts are known; on an error before the deletions nothing is deleted; without faults it succeeds if and only if no name is taken by an unmarked object, no unlisted name is asked for twice and no account is missing; every call, failed or not, keeps deployments under their own accounts |
| Reconciler.ReconcileTwice | k8s/controller.go:141-160 | without faults the first of two calls succeeds if and only if the set is not refused, the second then if and only if the first dropped no account still in use, and the second creates, deletes and changes nothing |
| Reconciler.RefusedAgain | k8s/controller.go:644-656 | after a clean call the same set is refused exactly when a kept deployment ran under an account named like a marked deployment the set does not keep |
| Reconciler.OwnAccountsNeverDrop | k8s/controller.go:601-656 | where deployments run under their own accounts, none is missing and none is dropped |
| Reconciler.DroppingNamespace | k8s/controller.go:627-656 | a namespace whose first call succeeds and drops an account still in use |
| Reconciler.EntriesAreAsked | k8s/controller.go:487-527 | putting a set in place changes exactly the names asked for, and every asked object carries the mark |
| Reconciler.AskedCarries | k8s/controller.go:740-863 | under each name a set asks for is what the last entry using it says: the deployment with its image, replicas and command, the service with its ports, the ingress with its host, limit and backend, all with its labels |
| Reconciler.AskedInForce | k8s/controller.go:487-527 | in any objects that hold what was asked, every entry is in force and every entry whose names no later one uses has its ingress routed to its own pods |
| Reconciler.ClashMeans | k8s/controller.go:487-527 | with the entries before it in place, an entry clashes exactly when its names or its account are not as listed and made before it |
| Reconciler.AcceptsMeans | k8s/controller.go:487-527 | all entries are accepted if and only if no name is taken by an unmarked object, no unlisted name is asked for twice and no account is missing |
| Reconciler.Converges | k8s/controller.go:141-159 | after a clean call the marked objects are exactly the asked ones with the asked contents, and unmarked objects are untouched |
| Reconciler.LeftoversAreOld | k8s/controller.go:531-557 | failed deletions leave behind only objects that were marked before |
| Reconciler.SecondRunIsQuiet | k8s/controller.go:141-159 | the effect of a second successful clean call for the same set is nothing |
| Reconciler.AskedOfReconciled | k8s/controller.go:141-159 | after a clean call the listing is exactly the asked names, and the same set asks for the same objects again |
| Reconciler.AskedAgain | k8s/controller.go:740 | neither the mark the first call left in the label maps nor the accounts it placed change what the set asks for |
| Reconciler.ListedNeedsTheMark | k8s/controller.go:801-835 | had services and ingresses been built from given labels, the next listing would hold the entry's names, and the next call would find none of them taken, if and only if those labels have the mark |
| Migrator.ValidateAndInit | migrate/maos_migrate.go:418-448 | accepts exactly the lists numbered 1, 2, 3 and so on with both directions present |
| Migrator.SortVersions | migrate/maos_migrate.go:221-222 | the candidates in the direction's order |
| Migrator.SortedElements | migrate/maos_migrate.go:179-180 | sorting keeps every version once, and version 1 can only come last going down |
| Migrator.SelectTargets | migrate/maos_migrate.go:238-276 | cuts the sorted list by step limit and target, or rejects the options |
| Migrator.RunVersions | migrate/maos_migrate.go:286-317 | runs the plan up to the first failure; a dry run runs nothing |
| Migrator.ApplyMigrations | migrate/maos_migrate.go:238-318 | selection and execution together; after a failure the executed SQL is a prefix of the plan |
| Migrator.Database.ExistingMigrations | migrate/maos_migrate.go:323-338 | the recorded versions, none when the table is missing |
| Migrator.Database.Exec | migrate/maos_migrate.go:299 | one version's SQL, where version 1 creates and drops the ledger table itself |
| Migrator.Database.WriteLedger | migrate/maos_migrate.go:228-232 | rows are added or removed together; fails on a missing table |
| Migrator.Apply | migrate/maos_migrate.go:164-191 | reading the ledger, selecting and executing: the plan and its effect, or one of the failures |
| Migrator.MigrateDown | migrate/maos_migrate.go:164-206 | removes exactly what it ran, nothing once version 1 took the table, and panics without options otherwise |
| Migrator.MigrateUp | migrate/maos_migrate.go:209-235 | inserts exactly what it ran, and fails without a table to insert into |
| Migrator.Migrate | migrate/maos_migrate.go:152-235 | rejected options and dry runs change nothing, a failed run leaves the ledger and a prefix of the plan executed, a successful run records exactly what it ran with the table there where it is needed, and without faults it fails only on rejected options or a table that does not fit the plan; the panic and its state |
| Migrator.CutAt | migrate/maos_migrate.go:258-276 | cutting consecutive versions at a target |
| Migrator.PlanIsInterval | migrate/maos_migrate.go:243-276 | from ledger 1..k the plan is the consecutive versions to the goal, or the options are rejected |
| Migrator.LedgerStaysPrefix | migrate/maos_migrate.go:164-318 | a successful run takes ledger and schema from 1..k to 1..g, where g is n, the steps' or the target's version, k-1 by default going down, and 0 for target -1 |
| Migrator.TableFitsUnlessNothingToCreate | migrate/maos_migrate.go:228-232 | the ledger table fits every plan except an up run selecting nothing on an unmigrated database |
| Migrator.UpSucceedsUnlessNothingSelected | migrate/maos_migrate.go:209-235 | from a consistent database an up run that is no dry run can succeed if and only if its options are accepted and it does not select nothing on an unmigrated database |
| Migrator.UpSelectingNothingFails | migrate/maos_migrate.go:228-232 | such a run ends in an error and changes nothing |
| Migrator.UpThenDownRestores | migrate/maos_migrate.go:164-232 | up to a target and down to where it started restores ledger, schema and the table itself |
| Migrator.FailureDisagrees | migrate/maos_migrate.go:297-303 | after a failure part-way the ledger agrees with the schema exactly when nothing ran |
| Migrator.PlanFromNewerLedger | migrate/maos_migrate.go:173-183 | a binary knowing fewer versions than the ledger plans as if the ledger ended at its own |
| Migrator.DownFromNewerLedger | migrate/maos_migrate.go:173-207 | whatever the options, a down run by such a binary leaves a prefix exactly when its goal is to remove nothing or everything it knows |
| Migrator.NilOptionsPanicFromVersionTwo | migrate/maos_migrate.go:187-199 | a down run without options panics exactly from version 2 on, with schema and ledger already apart |
| Migrator.LedgerAgreesWithSchema | migrate/maos_migrate.go:152-232 | over any history of successful calls the ledger is a prefix of the known versions and equals the schema |
| Notifier.Notifier.ListenerConnect | internal/notifier/notifier.go:259-282 | an open connection is kept, otherwise a new one listens on nothing |
| Notifier.Notifier.ListenerClose | internal/notifier/notifier.go:237-255 | a closed connection listens on nothing |
| Notifier.Notifier.ListenerListen | internal/notifier/notifier.go:290-300 | a LISTEN succeeds only on a live connection and adds the topic, or changes nothing |
| Notifier.Notifier.ListenerUnlisten | internal/notifier/notifier.go:307-317 | an UNLISTEN succeeds only on a live connection and takes the topic off, or changes nothing |
| Notifier.Notifier.RemoveSubscription | internal/notifier/notifier.go:533-543 | takes the subscription out, and the topic with its last one |
| Notifier.Notifier.Listen | internal/notifier/notifier.go:431-495 | adds the subscription, listening on a new topic directly or through the waiting loop; a failure restores the subscriptions, and a connection made for it is closed unless the loop runs |
| Notifier.Notifier.Unlisten | internal/notifier/notifier.go:497-531 | gives up the topic with its last subscription only; a failure changes nothing |
| Notifier.Notifier.OpenSession | internal/notifier/notifier.go:171-189 | when no call comes in between, connecting and listening on all topics covers every topic with a subscriber or fails |
| Notifier.StepKeepsCovered | internal/notifier/notifier.go:171-235 | after every call, connection loss and loop step, in a session every topic with a subscriber is listened on or still to be listened on |
| Notifier.InvHolds | internal/notifier/notifier.go:171-543 | the whole invariant over every run |
| Notifier.WaitingCoversSubscribers | internal/notifier/notifier.go:171-235 | whenever the loop waits, the current connection has been told to listen on every topic with a subscriber; a topic is in the map exactly while a subscription to it was handed out and not given back, and never with an empty list |
| Notifier.LastUnlistenSilences | internal/notifier/notifier.go:497-531 | right after the last subscription of a topic is given back, the connection no longer listens on it |
| Notifier.StepKeepsStale | internal/notifier/notifier.go:177-189 | a topic comes to be listened on for nobody only by the opening of a session listening on it after its last subscription was given back |
| Notifier.StaleExactly | internal/notifier/notifier.go:177-189 | over every run, a topic without a subscriber is listened on exactly when the opening of the session listened on it while nobody subscribed, and since then nobody has and the connection has stayed |
| Notifier.StaleIsReachable | internal/notifier/notifier.go:177-189 | a run that ends waiting on a topic nobody subscribes to |
| Notifier.CallsLeaveStandingTopic | invocation/manager.go:72-76 | no other call ever listens or unlistens on the topic of a standing subscription |
| Notifier.StandingTopicStays | invocation/manager.go:72-76 | from then until its own Unlisten its topic stays in the map and is listened on whenever the loop waits |
| Notifier.FailedUnlistenSticks | internal/notifier/notifier.go:35-42 | an Unlisten leaves its subscription behind, used up, exactly when it was the last of its topic, a command was due, and the command failed |
| Notifier.StuckForEver | internal/notifier/notifier.go:35-42 | such a subscription stays in its topic's list in every later state |
| Notifier.StuckIsReachable | internal/notifier/notifier.go:35-42 | a run that leaves a subscription behind |
| StartStop.BaseStartStop.constructor | internal/startstop/start_stop.go:62-67 | nothing is started |
| StartStop.BaseStartStop.StartInit | internal/startstop/start_stop.go:106-127 | a new run unless one is recorded |
| StartStop.BaseStartStop.StopInit | internal/startstop/start_stop.go:176-194 | keeps the lock and cancels the recorded run, or does nothing |
| StartStop.BaseStartStop.FinalizeStop | internal/startstop/start_stop.go:187-193 | unlocks and forgets the run if it did stop |
| StartStop.BaseStartStop.CloseStartedOnce | internal/startstop/start_stop.go:118 | closes the started channel in the field once per run, or panics on a nil or closed one |
| StartStop.BaseStartStop.CloseStopped | internal/startstop/start_stop.go:120-126 | closes both channels in the fields, or panics |
| StartStop.StepKeepsInv | internal/startstop/start_stop.go:106-194 | every step of every thread and run loop keeps fields, channels, threads and the lock consistent |
| StartStop.InvHolds | internal/startstop/start_stop.go:106-194 | the same over every interleaving |
| StartStop.AtMostOneRun | internal/notifier/notifier.go:88-147 | at most one run loop is alive, from its first attempt to connect, and no channel is closed twice or while nil |
| StartStop.StopReturnsAfterTheEnd | internal/startstop/start_stop.go:141-149 | a Stop that found a run returns only when no run is alive, and the next Start makes a new one |
| StartStop.StepForward | internal/startstop/start_stop.go:141-149 | while a Stop waits, some step moves its run towards the end or lets it return |
| StartStop.NoStepBack | internal/startstop/start_stop.go:106-194 | no step of any thread moves a run back |
| StartStop.WaitingStopProgresses | internal/startstop/start_stop.go:141-194 | while a Stop waits some step moves its run towards the end, none moves it back, and once it has ended the Stop can return |
| StartStop.DeadStaysDead | internal/startstop/start_stop.go:110-112 | without a Stop no step revives a run that ended by itself |
| StartStop.FailedConnectIsDead | internal/notifier/notifier.go:94-102 | a failed connect leaves a recorded run that has ended, unless a Stop is already waiting for it |
| StartStop.StartMakesRun | internal/startstop/start_stop.go:106-116 | a Start makes a run exactly when none is recorded, and otherwise changes nothing |
| StartStop.DeadIsReachable | internal/notifier/notifier.go:88-102 | a Start and a failed connect reach such a state |
| StartStop.DeadUntilStopped | internal/notifier/notifier.go:94-102 | from then on every Start does nothing until somebody calls Stop |
| StartStop.StopRevives | internal/startstop/start_stop.go:141-149 | a Stop makes such a service able to start again |
| TokenCache.ApiTokenCache.constructor | middleware/token_cache.go:29-36 | an empty cache |
| TokenCache.ApiTokenCache.SetWithTTL | middleware/token_cache.go:57-61 | a set stores the entry or is dropped |
| TokenCache.RememberedFor | middleware/token_cache.go:20-28 | what was remembered is the answer throughout its lifetime and no longer, for ever under a zero lifetime, never under a negative one |
| TokenCache.ApiTokenCache.AskFetcher | middleware/token_cache.go:49-52 | a fetch takes time and fails or says a token or none |
| TokenCache.ApiTokenCache.GetToken | middleware/token_cache.go:38-72 | an entry that has not expired answers at once and asks nobody; a miss asks once and stores or not; a failure is answered like an absent token and stores nothing; every other answer is fresh |
| TokenCache.Decision | middleware/auth.go:59-67 | a token passes exactly until the end of the second in which it expires |
| TokenCache.Authenticate | middleware/auth.go:35-72 | which request is refused how, and that a token reaching the handler is a fresh answer for the presented string and not expired |
| TokenCache.SayKeepsInv | middleware/token_cache.go:47-62 | a finished fetch backs every answer and entry made from it |
| TokenCache.StepKeepsInv | middleware/token_cache.go:38-72 | hits, joins, buffered sets, evictions and elapsing time keep every entry backed and every answer fresh |
| TokenCache.StepKeepsWaiters | middleware/token_cache.go:46-48 | callers waiting for a key are exactly the waiters of its one fetch |
| TokenCache.AnswersAreFresh | middleware/token_cache.go:38-72 | with a lifetime other than zero every answer that is no failure was said by the fetcher for that key at most the lifetime plus one fetch earlier |
| TokenCache.RevocationTakesHold | middleware/token_cache.go:20-28 | a lifetime after the fetcher changes its answer for good, every answer is the new one |
| TokenCache.StaleAnswer | middleware/token_cache.go:57-61 | under a zero lifetime, for every bound a run exists with an answer older than the bound |
| TokenCache.BoundedExactlyWithLifetime | middleware/token_cache.go:38-62 | some bound on staleness holds for all answers of all runs if and only if the lifetime is not zero |
| TokenCache.FailuresAreNotCached | middleware/token_cache.go:49-67 | a failed fetch leaves the cache alone and answers all its waiters with no token; everything cached was said by the fetcher |
| Tokenizer.TokenizeCommand | util/tokenizer.go:5-43 | the loop computes the scan of the whole text |
| Tokenizer.FailsExactlyOnOddQuotes | util/tokenizer.go:11-37 | failure exactly when the number of quotes without a live backslash is odd |
| Tokenizer.Composition | util/tokenizer.go:11-42 | if a ends outside quotes with no pending escape, a + " " + b gives a's tokens followed by b's and fails exactly when b does |
| Tokenizer.PlainWordIsOneToken | util/tokenizer.go:31-40 | a nonempty text without space, quote or backslash is one token, itself |
| Tokenizer.QuotesGlue | util/tokenizer.go:20-32 | a quoted part between two plain ones makes one token with them |
| Tokenizer.OnePieceOneToken | util/tokenizer.go:11-42 | a text without an unquoted, unescaped space is one token, its literal text, or none if that is empty |
| Tokenizer.PiecesAreTokens | util/tokenizer.go:11-42 | pieces without such a space, joined by single spaces, are read back as the literal texts of those that have any |
| Tokenizer.TokensArePieces | util/tokenizer.go:11-42 | every accepted text is so joined: exactly the unquoted, unescaped spaces end a token |
| Tokenizer.TokensAreNonEmpty | util/tokenizer.go:22-40 | no token is empty |
| Tokenizer.TokensConserveText | util/tokenizer.go:11-42 | the tokens joined are the text without separators, quotes and live backslashes |
| Tokenizer.RenderReadsBack | util/tokenizer.go:5-43 | the quoted and escaped rendering of a list reads back as its non-empty strings, so as the list itself exactly when none is empty |

## Left out

- Invocations.InvocationTable.GetAvailable: the order in which the rows of one claim come back is left open; the manager only ever claims one.
- Invocations.ClaimedAtMostOnce: ids come from a sequence in insertion order; gaps and inserts committing out of order are not modelled.
- Waiting for a result: GetInvocationById, ExecuteInvocationSync and JSON marshalling of payloads and results are I/O around the same statements.
- Dispatcher.Dispatcher.Close: every call is one step, so a close racing with a dispatch in progress is not modelled.
- PollQueue.NoLostWakeUp: no errors, cancelled requests or closing; a notification issued reaches the dispatcher in the end. Other server processes appear only as jobs that vanish.
- Polling.GetNextInvocation: queries take no time and timers are exact.
- DeploymentTables.NewSuiteListing: the INSERT statements of create and clone are functions on the tables instead of methods, because their new rows are a map with arbitrary fresh ids; min_actor_version inheritance is left open, since its subquery has no tie-break.
- DeploymentTables.Store.PublishDeployment: the statement is atomic. The real one does not lock the rows its EXISTS looks for; what makes the atomic reading safe is the unique index on the deploying status (migrate/migration/017_add_unique_index_on_deploying_status.up.sql:1-3), which turns a lost race into an error.
- Publishing.InvHolds: a transaction commits or does not; a commit that succeeds but reports an error is not modelled. The single INSERT without a suite (DeploymentInsert) has no caller.
- Publishing.DeployedOnlyAfterMigrating: speaks of the configs the worker read before migrating; those written to the suite store are read later and may differ, and nothing is claimed about them.
- Writing the suite store, rotating API keys, restarting deployments and pod metrics: only their failing matters here.
- MigrationJobs.RunMigrations: of a failure only the job's name is modelled; which pod's logs are attached to it is not.
- MigrationJobs.RunDeploymentMigrations: unparsable memory quantities, which make the job's construction panic, and writing the logs to the database are not modelled.
- ConfigServing.ServesTheBest: a config's content is what decoding its JSON gives, or nothing; the decoding itself is not modelled.
- Tokenizer.TokenizeCommand: text is a sequence of characters; invalid UTF-8 is not modelled.
- Reconciler.UpdateDeploymentSet: resource contents are reduced to labels, image, replicas, command, ports and account; a first port is required for an ingress because the source indexes it, and labels are never nil because the source crashes on nil ones (its one caller, admin/deployment_manage.go:774-843, always gives both).
- Reconciler.Cluster.Create: other writers to the namespace between two calls of one run are not modelled.
- Migrator.Migrate: the SQL of a version is reduced to its effect on the schema and the ledger table, and the known versions to their numbers; reading migrations from the file system is left out.
- Notifier.Notifier.Listen: calls are atomic, although the lock is released while the loop serves an interrupt; the five-second limit on an interrupt and two calls overlapping on one topic are not modelled. Subscriptions are numbers.
- Notifier.Notifier.OpenSession: speaks of a session opened with no call in between; calls between its steps are covered by the state machine. Delivery of notifications and its bounded buffer are left out.
- Manager.Start: its error path, which calls Unlisten on a nil subscription when the first Listen fails, is not part of this model.
- StartStop.BaseStartStop.StartInit: the context is reduced to its cancellation, and a run loop to its beginning and its end.
- TokenCache.ApiTokenCache.GetToken: the method is one caller with nobody in between; overlapping callers are the state machine below it. Keys are compared as strings, not by hash, and the cache library's rules for zero and negative lifetimes are taken from its documentation, as the library is not part of the repository.
- Generated API code, handlers, permissions, pagination, secrets, LLM adapters, MCP and configuration loading: thin, generated or I/O.
