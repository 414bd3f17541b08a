# ORT server: job completion store, organization table and hierarchy services

This project models three stateful pieces of the ORT server, the backend that runs
open-source compliance scans (analyzer, advisor, scanner, evaluator, reporter jobs)
for the repositories of a hierarchy of organizations and products.

- **Worker-job completion store** (`WorkerJobs`). Every job kind has a repository with
  the same completion contract. `complete(id, finishedAt, status)` overwrites a job's
  finish time and status. `tryComplete` does so only for a job that is not completed yet.
  It returns null for a completed job and throws `IllegalArgumentException` for an unknown
  id. The store is a class over a `map<int, Job<C>>`, generic over the job-kind
  configuration `C`. The pure functions `CompleteStep` and `TryCompleteStep` are the
  specification of its `Complete` and `TryComplete` methods. `DeliverAll` handles a stream
  of delivered completion messages in order, one `tryComplete` per message. The lemmas
  about it prove what at-least-once delivery of completion messages needs:
  - the first completion wins;
  - a second `tryComplete` is a no-op;
  - a completed job is frozen whatever other messages arrive;
  - in any stream of completion messages with final statuses, at most one message per job
    takes effect.
- **Organization table** (`Organizations`). `DaoOrganizationRepository` supports create,
  get, update and delete. `update` takes tri-state `OptionalValue` fields: Absent leaves a
  field as it is, Present(v) sets it, and Present(null) clears the nullable description.
  Update and delete of an unknown id fail with `EntityNotFound`.
- **Hierarchy services** (`OrganizationServices`, `ProductServices`, over `Hierarchy`
  and `Authorization`). A create or delete runs a database transaction. After it, the
  service attempts the permission call and then the role call inside one `runCatching`:
  - a failure of the transaction propagates, and no authorization call is made;
  - a failure of the permission call skips the role call;
  - a failure of either call is swallowed.
  The authorization service is modelled as a set of granted entries plus a log of the
  calls made. Every failure is a boolean parameter. Each method's postcondition pins its
  result down from the old store and the transaction flag alone, so the result does not
  depend on the authorization flags.

Instants are integers counting nanoseconds since the epoch. Exceptions are `Failure`
values of `Common.Result`. Kotlin `null` is `Common.Option.None`.

## Model

| member | source | states |
|---|---|---|
| `WorkerJobs.ToDatabasePrecision` | dao/src/test/kotlin/repositories/WorkerJobRepositoryTest.kt:57 | the stored instant is a whole number of microseconds, at most the given instant and less than one microsecond before it |
| `WorkerJobs.PrecisionIsIdempotent` | dao/src/test/kotlin/repositories/WorkerJobRepositoryTest.kt:91 | rounding a stored instant to storage precision again changes nothing |
| `WorkerJobs.Completed` | dao/src/test/kotlin/repositories/WorkerJobRepositoryTest.kt:53-58 | a completed job has the given status and the finish time at storage precision; id, run, creation and start time and configuration are kept |
| `WorkerJobs.CompleteStep` | dao/src/test/kotlin/repositories/WorkerJobRepositoryTest.kt:47-60 | `complete` on an existing job sets its status and finish time and keeps every other field, and the returned job is the one stored; an unknown id fails with EntityNotFound and changes nothing; other jobs are untouched |
| `WorkerJobs.TryCompleteStep` | dao/src/test/kotlin/repositories/WorkerJobRepositoryTest.kt:62-100 | `tryComplete` on an uncompleted job acts as `complete` and returns the stored job; on a completed job it returns null and changes nothing; on an unknown id it fails with IllegalArgument |
| `WorkerJobs.FirstCompletionWins` | dao/src/test/kotlin/repositories/WorkerJobRepositoryTest.kt:77-94 | after `complete` with a final status, `tryComplete` with another status and time returns null and the first status and finish time stay |
| `WorkerJobs.TryCompleteIsIdempotent` | dao/src/test/kotlin/repositories/WorkerJobRepositoryTest.kt:77-94 | a second `tryComplete` after one with a final status that took effect returns null and leaves the table as it was |
| `WorkerJobs.DeliverAll` | dao/src/test/kotlin/repositories/WorkerJobRepositoryTest.kt:62-100 | a stream of completion messages handled in order by `tryComplete` yields one result per message, and the set of job ids never changes (no message creates or drops a job) |
| `WorkerJobs.UnknownJobsAreReported` | dao/src/test/kotlin/repositories/WorkerJobRepositoryTest.kt:96-100 | in a stream of deliveries, every message for an id that does not exist fails with IllegalArgument, never null |
| `WorkerJobs.CompletedJobIsFrozen` | dao/src/test/kotlin/repositories/WorkerJobRepositoryTest.kt:77-94 | once a job is completed, any later deliveries leave its row as it is and every delivery addressed to it yields null |
| `WorkerJobs.AtMostOneCompletionPerJob` | dao/src/test/kotlin/repositories/WorkerJobRepositoryTest.kt:62-94 | in any interleaved stream of completion messages with final statuses, at most one message per job takes effect; each later one for that job yields null |
| `WorkerJobs.DuplicateDeliveriesTakeEffectOnce` | dao/src/test/kotlin/repositories/WorkerJobRepositoryTest.kt:62-94 | duplicated messages for an uncompleted job: the first completes it with its own status and time, the duplicates yield null, no other job changes |
| `WorkerJobs.DuplicatesLeaveTableAlone` | dao/src/test/kotlin/repositories/WorkerJobRepositoryTest.kt:77-94 | messages that all address one completed job leave the whole table unchanged |
| `WorkerJobs.WorkerJobRepository.Create` | dao/src/test/kotlin/repositories/WorkerJobRepositoryTest.kt:43 | a created job gets a fresh id and is CREATED, with no start or finish time; nothing else changes |
| `WorkerJobs.WorkerJobRepository.Get` | dao/src/test/kotlin/repositories/WorkerJobRepositoryTest.kt:55 | `get` returns the stored job, or null exactly when the id is unknown |
| `WorkerJobs.WorkerJobRepository.Complete` | dao/src/test/kotlin/repositories/WorkerJobRepositoryTest.kt:47-60 | the new table is `CompleteStep` of the old one, and the returned job is what `get` shows afterwards |
| `WorkerJobs.WorkerJobRepository.TryComplete` | dao/src/test/kotlin/repositories/WorkerJobRepositoryTest.kt:62-100 | the new table and result are `TryCompleteStep` of the old table; a job returned is what `get` shows afterwards |
| `Organizations.ApplyUpdate` | dao/src/main/kotlin/repositories/DaoOrganizationRepository.kt:48-55 | the id is kept; an Absent field is unchanged; a Present field takes its value, including Present(null) clearing the description |
| `Organizations.AbsentUpdateIsIdentity` | dao/src/main/kotlin/repositories/DaoOrganizationRepository.kt:51-52 | an update with both fields Absent leaves the organization identical |
| `Organizations.PresentNullClearsOnlyDescription` | dao/src/main/kotlin/repositories/DaoOrganizationRepository.kt:52 | Absent name with Present(null) description keeps the name and clears the description |
| `Organizations.UpdatesCompose` | dao/src/main/kotlin/repositories/DaoOrganizationRepository.kt:51-52 | two successive updates equal one update where, per field, the later Present value wins |
| `Organizations.DaoOrganizationRepository.Create` | dao/src/main/kotlin/repositories/DaoOrganizationRepository.kt:36-41 | adds exactly one organization, under a fresh id, with the given name and description, and returns it |
| `Organizations.DaoOrganizationRepository.Get` | dao/src/main/kotlin/repositories/DaoOrganizationRepository.kt:43 | the stored organization, or null exactly when the id is unknown |
| `Organizations.DaoOrganizationRepository.All` | dao/src/main/kotlin/repositories/DaoOrganizationRepository.kt:45-46 | the listed organizations are exactly the stored ones |
| `Organizations.DaoOrganizationRepository.Update` | dao/src/main/kotlin/repositories/DaoOrganizationRepository.kt:48-55 | an existing row becomes `ApplyUpdate` of itself and is returned as re-read, with the same id; an unknown id fails and changes nothing |
| `Organizations.DaoOrganizationRepository.Delete` | dao/src/main/kotlin/repositories/DaoOrganizationRepository.kt:57 | the row is removed and `get` then yields null; the other organizations are untouched; an unknown id fails and changes nothing |
| `Authorization.ProvisionBestEffort` | services/src/main/kotlin/OrganizationService.kt:50-56 | permissions are requested before roles; roles are requested only when permissions succeeded; each entry is granted exactly when its call succeeded or it was already there; no other entity's entries change |
| `Authorization.DeprovisionBestEffort` | services/src/main/kotlin/OrganizationService.kt:78-84 | the same order for deletion; each entry is removed exactly when its call succeeded; no other entity's entries change |
| `Authorization.CleanupUndoesProvisioning` | services/src/main/kotlin/OrganizationService.kt:48-85 | a fully successful creation followed by a fully successful cleanup leaves no entry for the entity and every other entry as before |
| `OrganizationServices.OrganizationService.CreateOrganization` | services/src/main/kotlin/OrganizationService.kt:48-57 | a failed transaction propagates and makes no authorization call; otherwise the created organization is returned and retrievable, whatever the permission and role calls do; the calls use its new id |
| `OrganizationServices.OrganizationService.CreateProduct` | services/src/main/kotlin/OrganizationService.kt:62-71 | the same best-effort pattern; the product is created under the given organization id and returned whatever the authorization calls do |
| `OrganizationServices.OrganizationService.DeleteOrganization` | services/src/main/kotlin/OrganizationService.kt:76-85 | a failed transaction or an unknown id propagates and changes nothing, with no authorization call; after a delete, cleanup failures are swallowed |
| `OrganizationServices.OrganizationService.GetOrganization` | services/src/main/kotlin/OrganizationService.kt:87-92 | the organization, or null exactly when it does not exist |
| `OrganizationServices.OrganizationService.ListOrganizations` | services/src/main/kotlin/OrganizationService.kt:94-101 | every stored organization is listed, and only stored ones |
| `OrganizationServices.OrganizationService.ListProductsForOrganization` | services/src/main/kotlin/OrganizationService.kt:103-111 | exactly the stored products whose organization is the given one |
| `OrganizationServices.OrganizationService.UpdateOrganization` | services/src/main/kotlin/OrganizationService.kt:113-122 | delegates the tri-state update; a failure changes nothing; both fields default to Absent |
| `OrganizationServices.UpdateWithDefaultsKeepsOrganization` | services/src/main/kotlin/OrganizationService.kt:116-122 | calling `updateOrganization` with both fields omitted returns the existing organization and leaves it unchanged |
| `ProductServices.ProductService.CreateRepository` | services/hierarchy/src/main/kotlin/ProductService.kt:50-59 | a failed transaction propagates and makes no authorization call; otherwise the repository is created under the product and returned whatever the authorization calls do; permissions are requested before roles, under its new id |
| `ProductServices.ProductService.DeleteProduct` | services/hierarchy/src/main/kotlin/ProductService.kt:64-73 | a failed transaction or an unknown id propagates and changes nothing, with no authorization call; after a delete the product is gone and cleanup failures are swallowed |
| `ProductServices.ProductService.GetProduct` | services/hierarchy/src/main/kotlin/ProductService.kt:75-80 | the product, or null exactly when it does not exist |
| `ProductServices.ProductService.ListRepositoriesForProduct` | services/hierarchy/src/main/kotlin/ProductService.kt:82-90 | exactly the stored repositories whose product is the given one |
| `ProductServices.ProductService.UpdateProduct` | services/hierarchy/src/main/kotlin/ProductService.kt:92-101 | delegates the tri-state update; a failure changes nothing; both fields default to Absent |
| `ProductServices.UpdateWithDefaultsKeepsProduct` | services/hierarchy/src/main/kotlin/ProductService.kt:95-101 | calling `updateProduct` with both fields omitted returns the existing product and leaves it unchanged |

## Left out

- The `WorkerJobRepository` implementation is not part of this model; only its shared test is. A job counts as completed when its status is final (FINISHED, FAILED or FINISHED_WITH_ISSUES). `complete` on an unknown id fails with EntityNotFound.
- `JobStatus` has the six statuses of the job model: CREATED, SCHEDULED, RUNNING, FINISHED, FAILED and FINISHED_WITH_ISSUES. The route documentation shows only CREATED, RUNNING and FINISHED.
- `toDatabasePrecision` (dao utils) is not part of this model. It is modelled as truncation of nanosecond instants to whole microseconds, the resolution of the database's timestamps.
- WorkerJobs.WorkerJobRepository.TryComplete: each call is atomic. The race safety of a single conditional update under concurrent callers cannot be expressed in a sequential model.
- Transactions (`dbQuery`, `dbQueryCatching`, `blockingQuery`, `entityQuery`) are reduced to one failure flag per mutating call. A failed transaction changes nothing. Reads are total: the failure of a read transaction is not modelled.
- The product and repository DAOs are not part of this model. They are plain tables with the organization table's rules. A foreign key to a missing parent is not checked: that database refusal falls under the failure flag.
- The authorization service (Keycloak) is an abstract set of entries plus a call log. The organization, product and repository variants of each call are one call taking a scope. A failed call changes no entry; a partially applied Keycloak change is not modelled.
- Logging of swallowed failures is left out. The model only states that they are swallowed.
- `list` ordering and pagination (`ListQueryParameters`) live in DAO code outside this model. The list operations are modelled as the set of matching rows.
- OrganizationServices.OrganizationService.DeleteOrganization: deletes only the organization row. Whether the database cascades to products is not modelled.
- ProductServices.ProductService.DeleteProduct: deletes only the product row. Whether the database cascades to the product's repositories is not modelled.
- The run state machine, the dispatcher and job creation per stage are not part of this model; their code is not available.
