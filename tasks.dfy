/**
 * Task, attempt and dependency records of the scheduler, the cost estimate
 * used for autoscaling, and the read-only projections served to workers
 * and autoscalers (backend/transcribee_backend/models/task.py).
 */
module Tasks {
  import opened Wrappers

  /** Primary keys (UUIDs); only their identity matters here. */
  type Uuid = nat

  /** A timezone-aware instant, in microseconds since the Unix epoch. */
  type Timestamp = int

  /** The JSON values stored in the `task_parameters` and `extra_data` columns. */
  datatype JsonValue =
    | JNull
    | JBool(b: bool)
    | JNumber(n: real)
    | JString(s: string)
    | JArray(items: seq<JsonValue>)
    | JObject(fields: map<string, JsonValue>)

  type JsonObject = map<string, JsonValue>

  // ---------------------------------------------------------------------
  // Enumerations
  // ---------------------------------------------------------------------

  datatype TaskState = NEW | ASSIGNED | COMPLETED | FAILED
  {
    /** The string stored in the `state` column (also what `str()` gives). */
    function Value(): (v: string)
      ensures |v| > 0
    {
      match this
      case NEW => "NEW"
      case ASSIGNED => "ASSIGNED"
      case COMPLETED => "COMPLETED"
      case FAILED => "FAILED"
    }
  }

  /** The members of `TaskState`, in declaration order. */
  const AllTaskStates: seq<TaskState> := [NEW, ASSIGNED, COMPLETED, FAILED]

  /**
   * The task kinds the scheduler knows about: the members of the protocol
   * package's `TaskType` that the backend refers to.
   */
  datatype TaskType = REENCODE | TRANSCRIBE | ALIGN | IDENTIFY_SPEAKERS | EXPORT

  const AllTaskTypes: seq<TaskType> := [REENCODE, TRANSCRIBE, ALIGN, IDENTIFY_SPEAKERS, EXPORT]

  /** No two members of the sequence are equal. */
  predicate Distinct<T(==)>(xs: seq<T>)
  {
    forall i, j :: 0 <= i < j < |xs| ==> xs[i] != xs[j]
  }

  /** Iterating over either enumeration visits every member exactly once. */
  lemma EnumerationsComplete()
    ensures forall s: TaskState :: s in AllTaskStates
    ensures forall t: TaskType :: t in AllTaskTypes
    ensures Distinct(AllTaskStates) && Distinct(AllTaskTypes)
  {
    forall s: TaskState ensures s in AllTaskStates {
      match s
      case NEW => assert AllTaskStates[0] == s;
      case ASSIGNED => assert AllTaskStates[1] == s;
      case COMPLETED => assert AllTaskStates[2] == s;
      case FAILED => assert AllTaskStates[3] == s;
    }
    forall t: TaskType ensures t in AllTaskTypes {
      match t
      case REENCODE => assert AllTaskTypes[0] == t;
      case TRANSCRIBE => assert AllTaskTypes[1] == t;
      case ALIGN => assert AllTaskTypes[2] == t;
      case IDENTIFY_SPEAKERS => assert AllTaskTypes[3] == t;
      case EXPORT => assert AllTaskTypes[4] == t;
    }
  }

  /** The stored state strings identify the state. */
  lemma StateValueInjective(s: TaskState, t: TaskState)
    ensures s.Value() == t.Value() <==> s == t
  {
  }

  // ---------------------------------------------------------------------
  // Records
  // ---------------------------------------------------------------------

  /** A document, as far as scheduling needs it: its media duration in seconds. */
  datatype Document = Document(id: Uuid, duration: Option<real>)

  /** An edge `dependentTaskId` -> `dependantOnId`: the first task waits for the second. */
  datatype TaskDependency = TaskDependency(id: Uuid, dependentTaskId: Uuid, dependantOnId: Uuid)

  /** A row of the `task` table. */
  datatype Task = Task(
    id: Uuid,
    taskType: TaskType,
    taskParameters: JsonObject,
    documentId: Uuid,
    state: TaskState,
    stateChangedAt: Timestamp,
    currentAttemptId: Option<Uuid>,
    attemptCounter: int,
    remainingAttempts: int)

  /** A row of the `taskattempt` table. */
  datatype TaskAttempt = TaskAttempt(
    id: Uuid,
    taskId: Uuid,
    assignedWorkerId: Option<Uuid>,
    attemptNumber: int,
    startedAt: Option<Timestamp>,
    lastKeepalive: Option<Timestamp>,
    endedAt: Option<Timestamp>,
    progress: Option<real>,
    extraData: Option<JsonObject>)

  /**
   * A task as the ORM hands it to the projections below: the row together
   * with the records its relationships load (`task.document`,
   * `task.current_attempt`, `task.dependency_links`).
   */
  datatype LoadedTask = LoadedTask(
    row: Task,
    document: Document,
    currentAttempt: Option<TaskAttempt>,
    dependencyLinks: seq<TaskDependency>)

  /**
   * A task row built with only its required columns given: every other
   * column takes its declared default. `now` is the clock reading of the
   * `state_changed_at` default factory and `attemptLimit` the configured
   * `task_attempt_limit`.
   */
  function NewTask(id: Uuid, taskType: TaskType, taskParameters: JsonObject, documentId: Uuid,
                   now: Timestamp, attemptLimit: int): (t: Task)
    ensures t.id == id && t.taskType == taskType && t.taskParameters == taskParameters
    ensures t.documentId == documentId
    ensures t.state == NEW && t.stateChangedAt == now
    ensures t.attemptCounter == 0 && t.remainingAttempts == attemptLimit
    ensures t.currentAttemptId.None?
  {
    Task(id, taskType, taskParameters, documentId, NEW, now, None, 0, attemptLimit)
  }

  /** An attempt row built with only its required columns: every timestamp, the worker, the progress and the extra data are null. */
  function NewTaskAttempt(id: Uuid, taskId: Uuid, attemptNumber: int): (a: TaskAttempt)
    ensures a.id == id && a.taskId == taskId && a.attemptNumber == attemptNumber
    ensures a.assignedWorkerId.None?
    ensures a.startedAt.None? && a.lastKeepalive.None? && a.endedAt.None?
    ensures a.progress.None? && a.extraData.None?
  {
    TaskAttempt(id, taskId, None, attemptNumber, None, None, None, None, None)
  }

  // ---------------------------------------------------------------------
  // Cost estimate
  // ---------------------------------------------------------------------

  /** Assumed media duration (seconds) of a document whose duration is not known yet. */
  const DefaultMediaDuration: real := 600.0

  /** The duration the estimate uses: a missing or zero duration counts as ten minutes. */
  function MediaDuration(duration: Option<real>): (seconds: real)
  {
    if duration.None? || duration.value == 0.0 then DefaultMediaDuration else duration.value
  }

  /**
   * Estimated processing cost of a task, in minutes of processing on
   * reference hardware; `None` for task kinds without an estimate.
   */
  function InitialCost(taskType: TaskType, duration: Option<real>): (cost: Option<real>)
    ensures cost.None? <==> taskType == EXPORT
    ensures cost.Some? && MediaDuration(duration) >= 0.0 ==> cost.value > 0.0
  {
    var minutes := MediaDuration(duration) / 60.0;
    match taskType
    case REENCODE => Some(0.05 + minutes / 50.0)
    case TRANSCRIBE => Some(1.0 + minutes)
    case ALIGN => Some(1.0 + minutes)
    case IDENTIFY_SPEAKERS => Some(0.1 + minutes / 10.0)
    case EXPORT => None
  }

  /** Worked values of the estimate. */
  lemma InitialCostExamples()
    ensures InitialCost(TRANSCRIBE, Some(120.0)) == Some(3.0)
    ensures InitialCost(REENCODE, Some(3000.0)) == Some(1.05)
    ensures InitialCost(ALIGN, None) == Some(11.0)
    ensures InitialCost(IDENTIFY_SPEAKERS, Some(600.0)) == Some(1.1)
  {
  }

  /** A missing duration and a zero duration are both estimated as ten minutes of media. */
  lemma InitialCostDefaultDuration(taskType: TaskType)
    ensures InitialCost(taskType, None) == InitialCost(taskType, Some(0.0))
    ensures InitialCost(taskType, None) == InitialCost(taskType, Some(DefaultMediaDuration))
  {
  }

  /**
   * With m the media duration in minutes, the estimate is 0.05 + m/50 for
   * re-encoding, 1 + m for transcription and alignment and 0.1 + m/10 for
   * speaker identification: every kind's cost grows linearly with m, and
   * transcription and alignment cost the same.
   */
  lemma InitialCostInMinutes(duration: Option<real>)
    ensures var m := MediaDuration(duration) / 60.0;
      && InitialCost(REENCODE, duration) == Some(0.05 + m / 50.0)
      && InitialCost(TRANSCRIBE, duration) == Some(1.0 + m)
      && InitialCost(ALIGN, duration) == InitialCost(TRANSCRIBE, duration)
      && InitialCost(IDENTIFY_SPEAKERS, duration) == Some(0.1 + m / 10.0)
  {
  }

  /** Between two known, non-zero durations the longer one never costs less. */
  lemma InitialCostMonotone(taskType: TaskType, d1: real, d2: real)
    requires d1 != 0.0 && d2 != 0.0 && d1 <= d2
    ensures InitialCost(taskType, Some(d1)).Some? ==>
      InitialCost(taskType, Some(d1)).value <= InitialCost(taskType, Some(d2)).value
  {
  }

  /**
   * Cost still to be spent on a task: the initial estimate, scaled down by
   * the progress its current attempt reported, if any.
   */
  function RemainingTaskCost(task: LoadedTask): (cost: Option<real>)
    ensures cost.None? <==> InitialCost(task.row.taskType, task.document.duration).None?
  {
    var initial := InitialCost(task.row.taskType, task.document.duration);
    if initial.None? then None
    else if task.currentAttempt.Some? && task.currentAttempt.value.progress.Some? then
      Some(initial.value * (1.0 - task.currentAttempt.value.progress.value))
    else initial
  }

  /** Progress reported by the task's current attempt, if it has one and it reported any. */
  function ReportedProgress(task: LoadedTask): (progress: Option<real>)
  {
    if task.currentAttempt.Some? then task.currentAttempt.value.progress else None
  }

  /**
   * Without reported progress the remaining cost is the whole estimate; with
   * progress p it is the estimate times 1 - p, so for p in [0, 1] it lies
   * between zero and the estimate, and it is zero once p = 1.
   */
  lemma RemainingCostBounds(task: LoadedTask)
    ensures var initial := InitialCost(task.row.taskType, task.document.duration);
      ReportedProgress(task).None? ==> RemainingTaskCost(task) == initial
    ensures var initial := InitialCost(task.row.taskType, task.document.duration);
      initial.Some? && ReportedProgress(task).Some? ==>
        && RemainingTaskCost(task).Some?
        && RemainingTaskCost(task).value == initial.value * (1.0 - ReportedProgress(task).value)
    ensures var initial := InitialCost(task.row.taskType, task.document.duration);
      && initial.Some?
      && MediaDuration(task.document.duration) >= 0.0
      && (ReportedProgress(task).Some? ==> 0.0 <= ReportedProgress(task).value <= 1.0)
      ==> 0.0 <= RemainingTaskCost(task).value <= initial.value
    ensures RemainingTaskCost(task).Some? && ReportedProgress(task) == Some(1.0) ==>
      RemainingTaskCost(task).value == 0.0
  {

  }

  /** Scaling a non-negative amount by a factor in [0, 1] keeps it between zero and the amount. */
  lemma ScaledWithin(amount: real, factor: real)
    requires amount >= 0.0 && 0.0 <= factor <= 1.0
    ensures 0.0 <= amount * factor <= amount
  {

  }

  // ---------------------------------------------------------------------
  // Queue information for autoscalers
  // ---------------------------------------------------------------------

  /** One open task as reported to an autoscaler. */
  datatype QueueInfoTaskEntry = QueueInfoTaskEntry(
    id: Uuid,
    taskType: TaskType,
    state: TaskState,
    remainingCost: Option<real>)

  /** The queue report: tasks that are running or can be claimed. */
  datatype QueueInfoResponse = QueueInfoResponse(openTasks: seq<QueueInfoTaskEntry>)

  /** One task's entry of the queue report: its id, type and state, and its remaining cost. */
  function EntryFromTask(task: LoadedTask): (e: QueueInfoTaskEntry)
    ensures e.id == task.row.id && e.taskType == task.row.taskType && e.state == task.row.state
    ensures e.remainingCost.None? <==> task.row.taskType == EXPORT
    ensures e.remainingCost == RemainingTaskCost(task)
  {
    QueueInfoTaskEntry(task.row.id, task.row.taskType, task.row.state, RemainingTaskCost(task))
  }

  /** The queue report for a list of open tasks: one entry per task, in the same order. */
  function QueueInfoFromOrm(openTasks: seq<LoadedTask>): (r: QueueInfoResponse)
    ensures |r.openTasks| == |openTasks|
    ensures forall i :: 0 <= i < |openTasks| ==>
      && r.openTasks[i].id == openTasks[i].row.id
      && r.openTasks[i].taskType == openTasks[i].row.taskType
      && r.openTasks[i].state == openTasks[i].row.state
      && r.openTasks[i].remainingCost == RemainingTaskCost(openTasks[i])
      && (r.openTasks[i].remainingCost.None? <==> openTasks[i].row.taskType == EXPORT)
  {
    QueueInfoResponse(seq(|openTasks|, i requires 0 <= i < |openTasks| => EntryFromTask(openTasks[i])))
  }

  /** Reporting two lists one after the other is reporting their concatenation. */
  lemma QueueInfoConcatenation(xs: seq<LoadedTask>, ys: seq<LoadedTask>)
    ensures QueueInfoFromOrm(xs + ys).openTasks
         == QueueInfoFromOrm(xs).openTasks + QueueInfoFromOrm(ys).openTasks
  {
  }

  /** No entry reports more remaining cost than its task's initial estimate, given sane inputs. */
  lemma QueueInfoCostsBounded(openTasks: seq<LoadedTask>, i: nat)
    requires i < |openTasks|
    requires MediaDuration(openTasks[i].document.duration) >= 0.0
    requires ReportedProgress(openTasks[i]).Some? ==> 0.0 <= ReportedProgress(openTasks[i]).value <= 1.0
    ensures var e := QueueInfoFromOrm(openTasks).openTasks[i];
      e.remainingCost.Some? ==>
        0.0 <= e.remainingCost.value <= InitialCost(e.taskType, openTasks[i].document.duration).value
  {
    RemainingCostBounds(openTasks[i]);
  }

  // ---------------------------------------------------------------------
  // Task representation served by the API
  // ---------------------------------------------------------------------

  datatype TaskAttemptResponse = TaskAttemptResponse(progress: Option<real>)

  datatype TaskResponse = TaskResponse(
    id: Uuid,
    state: TaskState,
    dependencies: seq<Uuid>,
    currentAttempt: Option<TaskAttemptResponse>,
    documentId: Uuid,
    taskType: TaskType,
    taskParameters: JsonObject)

  /** The ids of the tasks the links point at, in link order. */
  function DependencyIds(links: seq<TaskDependency>): (ids: seq<Uuid>)
    ensures |ids| == |links|
    ensures forall i :: 0 <= i < |links| ==> ids[i] == links[i].dependantOnId
  {
    seq(|links|, i requires 0 <= i < |links| => links[i].dependantOnId)
  }

  /**
   * The API view of a task: its columns, the ids of the tasks it depends on
   * (one per dependency link, in link order) and the progress of its
   * current attempt.
   */
  function TaskResponseFromOrm(task: LoadedTask): (r: TaskResponse)
    ensures r.id == task.row.id && r.state == task.row.state
    ensures r.documentId == task.row.documentId && r.taskType == task.row.taskType
    ensures r.taskParameters == task.row.taskParameters
    ensures r.dependencies == DependencyIds(task.dependencyLinks)
    ensures r.currentAttempt.None? <==> task.currentAttempt.None?
    ensures r.currentAttempt.Some? ==> r.currentAttempt.value.progress == task.currentAttempt.value.progress
  {
    TaskResponse(
      task.row.id,
      task.row.state,
      DependencyIds(task.dependencyLinks),
      if task.currentAttempt.Some? then Some(TaskAttemptResponse(task.currentAttempt.value.progress)) else None,
      task.row.documentId,
      task.row.taskType,
      task.row.taskParameters)
  }

  /** A task id is listed as a dependency exactly when some dependency link points at it. */
  lemma DependenciesMatchLinks(task: LoadedTask, dep: Uuid)
    ensures dep in TaskResponseFromOrm(task).dependencies
        <==> exists l :: l in task.dependencyLinks && l.dependantOnId == dep
  {

  }

  // ---------------------------------------------------------------------
  // Task creation payloads
  // ---------------------------------------------------------------------

  /** Parameters of a transcription task. */
  datatype TranscribeTaskParameters = TranscribeTaskParameters(lang: string, model: string)

  /**
   * The accepted task-creation payloads, one variant per task kind with its
   * own parameter shape, and a catch-all for kinds named by a free string.
   * The export parameters' schema is not modelled and is kept as JSON.
   */
  datatype CreateTask =
    | SpeakerIdentificationTask(documentId: Uuid, parameters: JsonObject)
    | TranscribeTask(documentId: Uuid, transcribeParameters: TranscribeTaskParameters)
    | AlignTask(documentId: Uuid, parameters: JsonObject)
    | ExportTask(documentId: Uuid, exportParameters: JsonObject)
    | UnknownTask(documentId: Uuid, taskTypeName: string, parameters: JsonObject)

  /** The fixed task kind of each variant; the catch-all names its kind by string instead. */
  function CreateTaskType(c: CreateTask): (t: Option<TaskType>)
    ensures t.None? <==> c.UnknownTask?
    ensures t == Some(IDENTIFY_SPEAKERS) <==> c.SpeakerIdentificationTask?
    ensures t == Some(TRANSCRIBE) <==> c.TranscribeTask?
    ensures t == Some(ALIGN) <==> c.AlignTask?
    ensures t == Some(EXPORT) <==> c.ExportTask?
    ensures t != Some(REENCODE)
  {
    match c
    case SpeakerIdentificationTask(_, _) => Some(IDENTIFY_SPEAKERS)
    case TranscribeTask(_, _) => Some(TRANSCRIBE)
    case AlignTask(_, _) => Some(ALIGN)
    case ExportTask(_, _) => Some(EXPORT)
    case UnknownTask(_, _, _) => None
  }

  /** Transcription parameters as the JSON object stored with the task. */
  function TranscribeParametersJson(p: TranscribeTaskParameters): JsonObject
  {
    map["lang" := JString(p.lang), "model" := JString(p.model)]
  }

  /** Reads transcription parameters back: both keys must hold strings; other keys are ignored. */
  function ParseTranscribeParameters(obj: JsonObject): (r: Option<TranscribeTaskParameters>)
    ensures r.Some? <==> ("lang" in obj && obj["lang"].JString? && "model" in obj && obj["model"].JString?)
    ensures r.Some? ==> r.value.lang == obj["lang"].s && r.value.model == obj["model"].s
  {
    if "lang" in obj && obj["lang"].JString? && "model" in obj && obj["model"].JString? then
      Some(TranscribeTaskParameters(obj["lang"].s, obj["model"].s))
    else None
  }

  /** The `task_parameters` JSON of a creation payload. */
  function CreateTaskParameters(c: CreateTask): JsonObject
  {
    match c
    case SpeakerIdentificationTask(_, p) => p
    case TranscribeTask(_, p) => TranscribeParametersJson(p)
    case AlignTask(_, p) => p
    case ExportTask(_, p) => p
    case UnknownTask(_, _, p) => p
  }

  /** Stored transcription parameters read back as the ones given. */
  lemma TranscribeParametersRoundTrip(c: CreateTask)
    requires c.TranscribeTask?
    ensures ParseTranscribeParameters(CreateTaskParameters(c)) == Some(c.transcribeParameters)
  {

  }
}
