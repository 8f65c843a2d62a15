# Task scheduler bookkeeping of transcribee, in Dafny

transcribee's backend schedules units of media-processing work ("tasks":
re-encode, transcribe, align, identify speakers, export) for remote workers.
This project models the bookkeeping side of that scheduler:

- `tasks.dfy` (module `Tasks`, from `backend/transcribee_backend/models/task.py`):
  - the task, attempt and dependency records and the defaults of a new row;
  - the per-type cost estimate used for autoscaling, and the remaining cost
    scaled by the current attempt's progress;
  - the read-only projections: the queue report for autoscalers and the API
    view of a task;
  - the task-creation payloads, one variant per task kind.
- `metrics.dfy` (module `Metrics`, from `backend/transcribee_backend/metrics.py`):
  - each gauge's refresh, stated over a `Snapshot` of the tables (tasks,
    attempts, documents, workers, users):
    - tasks per (state, type), zero-filled over the full cross product;
    - the "all" and "alive" worker counts;
    - user and document totals;
    - queue length in seconds of media per task type;
  - the registry that creates the metrics in a fixed order and refreshes them;
  - the credential check of the metrics endpoint.
- `counting.dfy` (module `Counting`): what `count(*)` and `sum(...)` over a
  sequence of rows mean, with the lemmas the metrics proofs use.
- `wrappers.dfy` (module `Wrappers`): `Option` for nullable columns and
  `Result` for rejections.

Modelling choices:

- Costs, durations and progress are `real`, not IEEE floats.
- Timestamps are `int` microseconds. `worker_timeout` is whole seconds.
- The clock (`now_tz_aware`) and the configuration (`settings`) are
  parameters: `now`, `attemptLimit` and `Settings`.
- The two grouped SQL queries are executed by the database. So
  `RefreshTasksInState` and `RefreshQueue` take the query's rows as input.
  Their `requires` states what makes the rows a valid answer: each row
  carries its group's true aggregate, and every non-empty group has a row.
  The row order is left free. The loop that fills the zero-initialised map
  is then proved to produce exactly the spec function `TasksInState` or
  `QueueSeconds`. `TaskCountRows` and `QueueRows` build one valid answer;
  the registry uses them.
- The joins of the queue query are lookups by primary key (`FindDocument`,
  `FindAttempt`). The inner join on the document drops a task whose
  document is missing. The outer join on the current attempt reads a
  missing attempt as progress 0.

Facts about the code that the model keeps:

- "Alive" workers: the query at `metrics.py:58-65` reads only `last_seen`,
  so a deactivated worker seen recently counts as alive
  (`AliveIgnoresDeactivation`).
- Default duration: the `or` at `task.py:78` replaces a missing duration
  and also a duration of 0 by ten minutes (`InitialCostDefaultDuration`).
  The estimate is therefore not monotone across 0, and
  `InitialCostMonotone` takes non-zero durations.
- Unknown task kinds: `UnknownTask` carries its kind as a free string
  (`task.py:297-299`), and so does the model's `CreateTask.UnknownTask`.
- Re-initialising the metrics: each metric creates a named collector, and
  the collector registry refuses a second collector of the same name. So a
  second `init_metrics()` fails on its first metric and registers nothing
  more (`InitMetrics`, `InitialisesOnce`).

## Model

| member | source | states |
|---|---|---|
| `Tasks.EnumerationsComplete` | backend/transcribee_backend/models/task.py:18-22 | the task-state and task-type enumerations each list every member exactly once (what iterating an enum visits) |
| `Tasks.StateValueInjective` | backend/transcribee_backend/models/task.py:18-25 | two states have the same stored string exactly when they are the same state |
| `Tasks.NewTask` | backend/transcribee_backend/models/task.py:50-112 | a new task row is NEW, stamped with the current time, has attempt counter 0, remaining attempts equal to the configured limit and no current attempt |
| `Tasks.NewTaskAttempt` | backend/transcribee_backend/models/task.py:156-170 | a new attempt has no worker, no start/keepalive/end timestamps, no progress and no extra data |
| `Tasks.InitialCost` | backend/transcribee_backend/models/task.py:67-87 | the estimate is absent exactly for EXPORT; when present and the duration used is non-negative it is positive |
| `Tasks.InitialCostExamples` | backend/transcribee_backend/models/task.py:80-87 | TRANSCRIBE at 120 s costs 3.0, REENCODE at 3000 s costs 1.05, ALIGN with no duration costs 11, IDENTIFY_SPEAKERS at 600 s costs 1.1 |
| `Tasks.InitialCostDefaultDuration` | backend/transcribee_backend/models/task.py:76-78 | a missing duration and a zero duration both give the estimate for 600 s |
| `Tasks.InitialCostInMinutes` | backend/transcribee_backend/models/task.py:80-87 | with m the duration in minutes: REENCODE 0.05 + m/50, TRANSCRIBE 1 + m, ALIGN the same as TRANSCRIBE, IDENTIFY_SPEAKERS 0.1 + m/10 |
| `Tasks.InitialCostMonotone` | backend/transcribee_backend/models/task.py:78-87 | between two known non-zero durations, the longer never has the lower estimate |
| `Tasks.RemainingTaskCost` | backend/transcribee_backend/models/task.py:235-247 | the remaining cost is absent exactly when the initial estimate is |
| `Tasks.RemainingCostBounds` | backend/transcribee_backend/models/task.py:241-247 | without reported progress the remaining cost is the estimate; with progress p it is estimate × (1 − p); for p in [0, 1] it lies in [0, estimate]; at p = 1 it is 0 |
| `Tasks.EntryFromTask` | backend/transcribee_backend/models/task.py:250-256 | an entry copies the task's id, type and state and carries its remaining cost, absent exactly for EXPORT |
| `Tasks.QueueInfoFromOrm` | backend/transcribee_backend/models/task.py:250-268 | one entry per open task, same order and length, with id, type and state copied and the remaining cost of that task (absent exactly for EXPORT) |
| `Tasks.QueueInfoConcatenation` | backend/transcribee_backend/models/task.py:264-268 | the report of two lists one after the other is the concatenation of their reports |
| `Tasks.QueueInfoCostsBounded` | backend/transcribee_backend/models/task.py:235-256 | for sane duration and progress, no entry reports more remaining cost than its task's initial estimate, nor less than zero |
| `Tasks.DependencyIds` | backend/transcribee_backend/models/task.py:202 | one id per dependency link, in link order: the id of the task the link points at |
| `Tasks.TaskResponseFromOrm` | backend/transcribee_backend/models/task.py:183-212 | the API view copies id, state, document, type and parameters, lists the dependencies link by link, and has a current attempt exactly when the task does, with the same progress |
| `Tasks.DependenciesMatchLinks` | backend/transcribee_backend/models/task.py:122-127 | an id is listed as a dependency exactly when some dependency link of the task points at it |
| `Tasks.CreateTaskType` | backend/transcribee_backend/models/task.py:271-304 | each creation variant fixes its own task kind, and only that variant has it: speaker identification IDENTIFY_SPEAKERS, transcription TRANSCRIBE, alignment ALIGN, export EXPORT; the catch-all names its kind by string; no variant fixes REENCODE |
| `Tasks.ParseTranscribeParameters` | backend/transcribee_backend/models/task.py:277-279 | transcription parameters are read exactly when both `lang` and `model` hold strings, and then `lang` and `model` are those strings |
| `Tasks.TranscribeParametersRoundTrip` | backend/transcribee_backend/models/task.py:277-285 | the stored parameters of a transcription payload read back as the given ones |
| `Metrics.AllPairsComplete` | backend/transcribee_backend/metrics.py:39 | the cross product of states and types contains every (state, type) pair exactly once |
| `Metrics.TasksInState` | backend/transcribee_backend/metrics.py:33-45 | the task gauge has an entry for every (state, type) pair |
| `Metrics.TasksInStateCounts` | backend/transcribee_backend/metrics.py:34-41 | each entry equals the number of tasks with exactly that state and type, and is 0 exactly when there is none |
| `Metrics.TasksInStateTotal` | backend/transcribee_backend/metrics.py:34-45 | the entries over the full cross product add up to the number of tasks |
| `Metrics.RefreshTasksInState` | backend/transcribee_backend/metrics.py:33-41 | zero-filling every pair and then overwriting from any valid answer of the grouped count yields exactly the task gauge's values |
| `Metrics.TaskCountRows` | backend/transcribee_backend/metrics.py:34-38 | the grouped count's rows carry each group's true, non-zero size, and every non-empty group has a row |
| `Metrics.TaskCountRowsAreAResult` | backend/transcribee_backend/metrics.py:34-38 | those rows are a valid answer for the refresh |
| `Metrics.WorkerCounts` | backend/transcribee_backend/metrics.py:52-65 | "all" is the number of workers with no deactivation time; "alive" is the number seen at or after now − timeout; both are at most the number of workers |
| `Metrics.AliveIgnoresDeactivation` | backend/transcribee_backend/metrics.py:58-65 | changing only deactivation times never changes the "alive" count |
| `Metrics.AliveBoundaryInclusive` | backend/transcribee_backend/metrics.py:59-63 | a worker seen exactly at the cutoff is alive; one seen a microsecond earlier is not |
| `Metrics.AliveShrinksOverTime` | backend/transcribee_backend/metrics.py:58-65 | with the same workers, a later clock reading never gives a larger "alive" count |
| `Metrics.OpenStates` | backend/transcribee_backend/metrics.py:106 | the queue query's string filter selects exactly NEW and ASSIGNED |
| `Metrics.FindDocument` | backend/transcribee_backend/metrics.py:103 | the join finds a document of the snapshot with the task's document id, and finds none exactly when no document has it |
| `Metrics.FindAttempt` | backend/transcribee_backend/metrics.py:104 | the outer join finds an attempt of the snapshot with the current attempt id, and finds none exactly when the id is null or no attempt has it |
| `Metrics.QueueSeconds` | backend/transcribee_backend/metrics.py:92-112 | the queue gauge has an entry for every task type |
| `Metrics.QueueSecondsExamples` | backend/transcribee_backend/metrics.py:93-107 | a NEW task on a 120 s document gives 120, with progress 0.5 gives 60, and a COMPLETED one gives 0 |
| `Metrics.ClosedTasksDoNotQueue` | backend/transcribee_backend/metrics.py:106 | adding a COMPLETED or FAILED task changes no queue length |
| `Metrics.QueueBacklogAdditive` | backend/transcribee_backend/metrics.py:96-105 | the queue length of two task lists together is the sum of their queue lengths |
| `Metrics.QueueBacklogBounds` | backend/transcribee_backend/metrics.py:96-101 | with non-negative durations and progress in [0, 1], a type's queue length is between 0 and the total duration of its open tasks |
| `Metrics.MissingQueueRowIsZero` | backend/transcribee_backend/metrics.py:105-112 | a type without a row in a valid answer of the queue query has queue length 0, so its default entry is right |
| `Metrics.RefreshQueue` | backend/transcribee_backend/metrics.py:92-112 | zero-filling every type and then overwriting from any valid answer of the queue query yields exactly the queue gauge's values |
| `Metrics.QueueRows` | backend/transcribee_backend/metrics.py:93-107 | the queue query's rows carry each type's queue length, and every type with an open task whose document exists has a row |
| `Metrics.QueueRowsAreAResult` | backend/transcribee_backend/metrics.py:93-107 | those rows are a valid answer for the refresh |
| `Metrics.RefreshMetric` | backend/transcribee_backend/metrics.py:27-112 | refreshing one metric yields its gauge's values for the snapshot: task counts, worker groups, user total, document total or queue lengths |
| `Metrics.MetricRegistry.constructor` | backend/transcribee_backend/metrics.py:116 | the registry starts empty |
| `Metrics.RegistrablePrefix` | backend/transcribee_backend/metrics.py:115-127 | the number of metric kinds, from the front, created before the first whose collector is already registered: none of those is registered, and the next one is |
| `Metrics.InitialisesOnce` | backend/transcribee_backend/metrics.py:115-127 | on an empty registry every kind is created; after that, a second initialisation creates nothing |
| `Metrics.MetricRegistry.InitMetrics` | backend/transcribee_backend/metrics.py:115-127 | appends the metric kinds in the fixed order TasksInState, Workers, Users, Documents, Queue until one is already registered; it succeeds exactly when none is, and the metrics created before a failure stay registered |
| `Metrics.MetricRegistry.RefreshMetrics` | backend/transcribee_backend/metrics.py:119-122 | refreshes every registered metric, in registration order, against the same snapshot |
| `Metrics.MetricsAuth` | backend/transcribee_backend/metrics.py:133-145 | accepts, yielding the user name, exactly when both user name and password equal the configured ones; otherwise rejects with 401 and a Basic challenge |
| `Metrics.RejectionRevealsNothing` | backend/transcribee_backend/metrics.py:140-144 | any two rejected credential pairs get the same answer, whichever field was wrong |

## Left out

- Metrics.MetricRegistry.InitMetrics: the collector registry is not modelled apart from `METRICS`; a kind counts as registered when it is in that list, which holds because collectors are only created by `init_metrics()`. The `ValueError` it raises is the `false` result.
- Persistence: SQLModel/SQLAlchemy relationships, foreign-key cascades,
  `post_update`, sessions and query execution are not modelled. A
  `LoadedTask` stands for a task with its relationships loaded. A
  `Snapshot` stands for the tables one session reads. Lookups by key
  (`FindDocument`, `FindAttempt`) take the first row with the key, which
  is the join when keys are unique.
- Prometheus: `Gauge` objects and their label strings are not modelled.
  A refresh returns its values instead of setting a collector. Every
  refresh sets every label, so the values are what the gauge then holds.
- `TaskType`: it comes from the protocol package, which is not part of this
  model. It is the five members the backend names. Its string values are not
  modelled, and neither are the gauge labels built from them.
- `ExportTaskParameters`: its schema comes from the protocol package. Export
  parameters are kept as an opaque JSON object.
- `AssignedTaskResponse.from_orm` is not modelled: it needs
  `Document.as_api_document`, which is not part of this model.
  `TaskResponse.from_orm`'s `update` argument is not modelled either: its
  only caller is `AssignedTaskResponse.from_orm`.
- Payload validation: pydantic validation of the `CreateTask` union is not
  modelled beyond the shape of each variant and the transcription
  parameters.
- Credentials: `secrets.compare_digest` on UTF-8 bytes is plain string
  equality here, which gives the same verdict. Its constant running time
  cannot be expressed. HTTP plumbing (`Depends`, `HTTPBasic`,
  `HTTPException`) is reduced to a `Result`.
- The user and document gauges count rows. The user and document models
  are not part of this model.
- `Worker` keeps only `id`, `last_seen` and `deactivated_at`. The worker
  model is not part of this model. `last_seen` is nullable, and a worker
  never seen is not alive (`NULL >= t` is not true in SQL).
- Floating-point rounding of costs and queue lengths is not modelled.
- Claim, progress reporting, completion, failure, retry, liveness sweeps,
  dependency readiness and cycle rejection are not in the modelled files,
  so they are not modelled.
- Concurrency and transactional exclusivity are not modelled.
- `Tasks.InitialCostMonotone`: it does not cover a zero duration. Zero
  counts as 600 s, so the estimate at 0 s exceeds the one at 1 s.
