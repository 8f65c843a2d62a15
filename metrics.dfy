/**
 * The monitoring gauges of the backend (backend/transcribee_backend/metrics.py):
 * each metric's refresh, restated as a computation over a snapshot of the
 * database; the registry that creates and refreshes them in a fixed order;
 * and the credential check guarding the metrics endpoint.
 */
module Metrics {
  import opened Wrappers
  import opened Tasks
  import opened Counting

  /** A worker, as far as the gauges need it. */
  datatype Worker = Worker(id: Uuid, lastSeen: Option<Timestamp>, deactivatedAt: Option<Timestamp>)

  /** The configuration values the gauges and the credential check read. */
  datatype Settings = Settings(workerTimeout: int, metricsUsername: string, metricsPassword: string)

  /** The rows of the tables the gauges aggregate, as one session sees them. */
  datatype Snapshot = Snapshot(
    tasks: seq<Task>,
    attempts: seq<TaskAttempt>,
    documents: seq<Document>,
    workers: seq<Worker>,
    users: seq<Uuid>)

  // ---------------------------------------------------------------------
  // Tasks per (state, task type)
  // ---------------------------------------------------------------------

  type StateAndType = (TaskState, TaskType)

  function KeyOf(t: Task): StateAndType
  {
    (t.state, t.taskType)
  }

  /** Membership in the group of tasks with the given state and type. */
  function InGroup(key: StateAndType): Task -> bool
  {
    (t: Task) => KeyOf(t) == key
  }

  /** One pair of `s` with each member of `types`, in order. */
  function PairsWith(s: TaskState, types: seq<TaskType>): (ps: seq<StateAndType>)
    ensures |ps| == |types|
    ensures forall i :: 0 <= i < |types| ==> ps[i] == (s, types[i])
  {
    seq(|types|, i requires 0 <= i < |types| => (s, types[i]))
  }

  /** Every pair of a member of `states` with a member of `types`. */
  function Pairs(states: seq<TaskState>, types: seq<TaskType>): seq<StateAndType>
  {
    if states == [] then [] else PairsWith(states[0], types) + Pairs(states[1..], types)
  }

  lemma {:induction false} PairsMembers(states: seq<TaskState>, types: seq<TaskType>, key: StateAndType)
    ensures key in Pairs(states, types) <==> key.0 in states && key.1 in types
  {
    if states != [] {
      PairsMembers(states[1..], types, key);
      var row := PairsWith(states[0], types);
      if key in row {
        var i :| 0 <= i < |row| && row[i] == key;
        assert key.1 == types[i];
      }
      if key.0 == states[0] && key.1 in types {
        var i :| 0 <= i < |types| && types[i] == key.1;
        assert row[i] == key;
      }
      assert key.0 in states <==> key.0 == states[0] || key.0 in states[1..];
    }
  }

  lemma {:induction false} PairsDistinct(states: seq<TaskState>, types: seq<TaskType>)
    requires Distinct(states) && Distinct(types)
    ensures Distinct(Pairs(states, types))
  {
    if states != [] {
      var row := PairsWith(states[0], types);
      var rest := Pairs(states[1..], types);
      assert Distinct(states[1..]) by {
        forall i, j | 0 <= i < j < |states[1..]| ensures states[1..][i] != states[1..][j] {
          assert states[1..][i] == states[i + 1] && states[1..][j] == states[j + 1];
        }
      }
      PairsDistinct(states[1..], types);
      assert states[0] !in states[1..];
      forall i, j | 0 <= i < j < |row + rest|
        ensures (row + rest)[i] != (row + rest)[j]
      {
        if j >= |row| && i < |row| {
          var k := (row + rest)[j];
          assert k in rest;
          PairsMembers(states[1..], types, k);
        }
      }
    }
  }

  /** The full cross product of task states and task types. */
  const AllPairs: seq<StateAndType> := Pairs(AllTaskStates, AllTaskTypes)

  lemma AllPairsComplete()
    ensures forall key: StateAndType :: key in AllPairs
    ensures Distinct(AllPairs)
  {
    EnumerationsComplete();
    forall key: StateAndType ensures key in AllPairs {
      PairsMembers(AllTaskStates, AllTaskTypes, key);
    }
    PairsDistinct(AllTaskStates, AllTaskTypes);
  }

  /** The task gauge's values: for every (state, type) pair, how many tasks are in it. */
  function TasksInState(tasks: seq<Task>): (counts: map<StateAndType, nat>)
    ensures forall key: StateAndType :: key in counts
  {
    AllPairsComplete();
    map key | key in AllPairs :: Count(tasks, InGroup(key))
  }

  /** Each entry is the number of tasks that have exactly that state and type; it is zero exactly when there are none. */
  lemma TasksInStateCounts(tasks: seq<Task>, s: TaskState, ty: TaskType)
    ensures TasksInState(tasks)[(s, ty)] == |set i | 0 <= i < |tasks| && tasks[i].state == s && tasks[i].taskType == ty|
    ensures TasksInState(tasks)[(s, ty)] == 0 <==> forall t :: t in tasks ==> t.state != s || t.taskType != ty
  {
    var p := InGroup((s, ty));
    AllPairsComplete();
    assert TasksInState(tasks)[(s, ty)] == Count(tasks, p);
    CountIsPositionsSize(tasks, p);
    assert Positions(tasks, p) == set i | 0 <= i < |tasks| && tasks[i].state == s && tasks[i].taskType == ty;
    CountZeroIff(tasks, p);
  }

  /** Sum, over the pairs of `keys`, of the number of tasks in each pair's group. */
  function GroupTotal(tasks: seq<Task>, keys: seq<StateAndType>): (total: nat)
  {
    if keys == [] then 0 else Count(tasks, InGroup(keys[0])) + GroupTotal(tasks, keys[1..])
  }

  /** Membership of a task's group in `keys`. */
  function GroupIn(keys: seq<StateAndType>): Task -> bool
  {
    (t: Task) => KeyOf(t) in keys
  }

  lemma {:induction false} GroupTotalCountsMembers(tasks: seq<Task>, keys: seq<StateAndType>)
    requires Distinct(keys)
    ensures GroupTotal(tasks, keys) == Count(tasks, GroupIn(keys))
  {
    if keys == [] {
      CountZeroIff(tasks, GroupIn(keys));
    } else {
      var rest := keys[1..];
      assert Distinct(rest) by {
        forall i, j | 0 <= i < j < |rest| ensures rest[i] != rest[j] {
          assert rest[i] == keys[i + 1] && rest[j] == keys[j + 1];
        }
      }
      GroupTotalCountsMembers(tasks, rest);
      assert keys[0] !in rest;
      assert forall k :: k in keys <==> k == keys[0] || k in rest;
      CountDisjoint(tasks, InGroup(keys[0]), GroupIn(rest), GroupIn(keys));
    }
  }

  /** Sum of the entries of `counts` at the pairs of `keys`. */
  function EntriesTotal(counts: map<StateAndType, nat>, keys: seq<StateAndType>): (total: nat)
    requires forall key :: key in keys ==> key in counts
  {
    if keys == [] then 0 else counts[keys[0]] + EntriesTotal(counts, keys[1..])
  }

  lemma {:induction false} EntriesTotalIsGroupTotal(tasks: seq<Task>, keys: seq<StateAndType>)
    ensures EntriesTotal(TasksInState(tasks), keys) == GroupTotal(tasks, keys)
  {
    if keys != [] {
      AllPairsComplete();
      EntriesTotalIsGroupTotal(tasks, keys[1..]);
    }
  }

  /** The entries of the task gauge, over the full cross product, add up to the number of tasks. */
  lemma TasksInStateTotal(tasks: seq<Task>)
    ensures EntriesTotal(TasksInState(tasks), AllPairs) == |tasks|
  {
    AllPairsComplete();
    EntriesTotalIsGroupTotal(tasks, AllPairs);
    GroupTotalCountsMembers(tasks, AllPairs);
    CountEverything(tasks, GroupIn(AllPairs));
  }

  /** A row of the grouped count query: a (state, type) group and its size. */
  datatype TaskCountRow = TaskCountRow(state: TaskState, taskType: TaskType, count: nat)

  function RowKey(r: TaskCountRow): StateAndType
  {
    (r.state, r.taskType)
  }

  /**
   * `rows` can be the result of grouping the tasks by state and type and
   * counting each group: every row carries the size of its group, and the
   * group of every task has a row.
   */
  ghost predicate IsTaskCountResult(tasks: seq<Task>, rows: seq<TaskCountRow>)
  {
    && (forall i :: 0 <= i < |rows| ==> rows[i].count == Count(tasks, InGroup(RowKey(rows[i]))))
    && (forall t :: t in tasks ==> exists i :: 0 <= i < |rows| && RowKey(rows[i]) == KeyOf(t))
  }

  /** Some row of `rows` is for the group `key`. */
  ghost predicate HasRow(rows: seq<TaskCountRow>, key: StateAndType)
  {
    exists i :: 0 <= i < |rows| && RowKey(rows[i]) == key
  }

  lemma HasRowExtend(rows: seq<TaskCountRow>, i: nat, key: StateAndType)
    requires i < |rows|
    ensures HasRow(rows[..i + 1], key) <==> HasRow(rows[..i], key) || RowKey(rows[i]) == key
  {

  }

  /** In a query result, a group without a row is empty. */
  lemma MissingRowIsEmptyGroup(tasks: seq<Task>, rows: seq<TaskCountRow>, key: StateAndType)
    requires IsTaskCountResult(tasks, rows)
    requires !HasRow(rows, key)
    ensures Count(tasks, InGroup(key)) == 0
  {
    CountZeroIff(tasks, InGroup(key));
    forall j | 0 <= j < |tasks| ensures !InGroup(key)(tasks[j]) {
      assert tasks[j] in tasks;
    }
  }

  /**
   * Refresh of the task gauge: start from zero for every (state, type)
   * pair, then overwrite the pairs the grouped query returned.
   */
  method RefreshTasksInState(tasks: seq<Task>, rows: seq<TaskCountRow>) returns (counts: map<StateAndType, nat>)
    requires IsTaskCountResult(tasks, rows)
    ensures counts == TasksInState(tasks)
  {
    AllPairsComplete();
    counts := map key | key in AllPairs :: 0;
    for i := 0 to |rows|
      invariant forall key: StateAndType :: key in counts
      invariant forall key :: key in counts ==>
        counts[key] == if HasRow(rows[..i], key) then Count(tasks, InGroup(key)) else 0
    {
      var key := RowKey(rows[i]);
      counts := counts[key := rows[i].count];
      forall k | k in counts
        ensures counts[k] == if HasRow(rows[..i + 1], k) then Count(tasks, InGroup(k)) else 0
      {
        HasRowExtend(rows, i, k);
      }
    }
    assert rows[..|rows|] == rows;
    var expected := TasksInState(tasks);
    forall key | key in counts
      ensures counts[key] == expected[key]
    {
      assert expected[key] == Count(tasks, InGroup(key));
      if !HasRow(rows, key) {
        MissingRowIsEmptyGroup(tasks, rows, key);
      }
    }
    assert counts.Keys == expected.Keys;
  }

  /** The grouped count query's answer: one row per non-empty group, in the order of `keys`. */
  function TaskCountRows(tasks: seq<Task>, keys: seq<StateAndType>): (rows: seq<TaskCountRow>)
    ensures forall i :: 0 <= i < |rows| ==>
      rows[i].count == Count(tasks, InGroup(RowKey(rows[i]))) && rows[i].count > 0
    ensures forall key :: key in keys && Count(tasks, InGroup(key)) > 0 ==> HasRow(rows, key)
  {
    if keys == [] then []
    else
      var rest := TaskCountRows(tasks, keys[1..]);
      var n := Count(tasks, InGroup(keys[0]));
      if n > 0 then
        var rows := [TaskCountRow(keys[0].0, keys[0].1, n)] + rest;
        assert forall key :: HasRow(rest, key) ==> HasRow(rows, key) by {
          forall key | HasRow(rest, key) ensures HasRow(rows, key) {
            var j :| 0 <= j < |rest| && RowKey(rest[j]) == key;
            assert RowKey(rows[j + 1]) == key;
          }
        }
        assert RowKey(rows[0]) == keys[0];
        rows
      else rest
  }

  /** The canonical answer of the grouped query qualifies as its result. */
  lemma TaskCountRowsAreAResult(tasks: seq<Task>)
    ensures IsTaskCountResult(tasks, TaskCountRows(tasks, AllPairs))
  {
    var rows := TaskCountRows(tasks, AllPairs);
    AllPairsComplete();
    forall t | t in tasks
      ensures exists i :: 0 <= i < |rows| && RowKey(rows[i]) == KeyOf(t)
    {
      var j :| 0 <= j < |tasks| && tasks[j] == t;
      CountZeroIff(tasks, InGroup(KeyOf(t)));
      assert InGroup(KeyOf(t))(tasks[j]);
      assert HasRow(rows, KeyOf(t));
    }
  }

  // ---------------------------------------------------------------------
  // Workers
  // ---------------------------------------------------------------------

  /** Not manually deactivated. */
  function IsActive(w: Worker): bool
  {
    w.deactivatedAt.None?
  }

  /** Seen at or after `cutoff` (a worker never seen does not qualify). */
  function SeenSince(cutoff: Timestamp): Worker -> bool
  {
    (w: Worker) => w.lastSeen.Some? && w.lastSeen.value >= cutoff
  }

  /** The instant `workerTimeout` seconds before `now`. */
  function WorkerTimeoutAgo(now: Timestamp, settings: Settings): Timestamp
  {
    now - settings.workerTimeout * 1_000_000
  }

  /**
   * The worker gauge's values: "all" counts the workers that are not
   * deactivated, "alive" the workers seen within the timeout, deactivated
   * or not.
   */
  function WorkerCounts(workers: seq<Worker>, now: Timestamp, settings: Settings): (groups: map<string, nat>)
    ensures groups.Keys == {"all", "alive"}
    ensures groups["all"] == |set i | 0 <= i < |workers| && workers[i].deactivatedAt.None?|
    ensures groups["alive"] == |set i | 0 <= i < |workers| && workers[i].lastSeen.Some?
                                         && workers[i].lastSeen.value >= WorkerTimeoutAgo(now, settings)|
    ensures groups["all"] <= |workers| && groups["alive"] <= |workers|
  {
    var cutoff := WorkerTimeoutAgo(now, settings);
    CountIsPositionsSize(workers, IsActive);
    CountIsPositionsSize(workers, SeenSince(cutoff));
    assert Positions(workers, IsActive) == set i | 0 <= i < |workers| && workers[i].deactivatedAt.None?;
    assert Positions(workers, SeenSince(cutoff))
        == set i | 0 <= i < |workers| && workers[i].lastSeen.Some? && workers[i].lastSeen.value >= cutoff;
    map["all" := Count(workers, IsActive), "alive" := Count(workers, SeenSince(cutoff))]
  }

  /** Deactivating or reactivating workers does not change the "alive" count. */
  lemma AliveIgnoresDeactivation(workers: seq<Worker>, changed: seq<Worker>, now: Timestamp, settings: Settings)
    requires |changed| == |workers|
    requires forall i :: 0 <= i < |workers| ==> changed[i].lastSeen == workers[i].lastSeen
    ensures WorkerCounts(changed, now, settings)["alive"] == WorkerCounts(workers, now, settings)["alive"]
  {
    var cutoff := WorkerTimeoutAgo(now, settings);
    assert (set i | 0 <= i < |changed| && changed[i].lastSeen.Some? && changed[i].lastSeen.value >= cutoff)
        == (set i | 0 <= i < |workers| && workers[i].lastSeen.Some? && workers[i].lastSeen.value >= cutoff);
  }

  /** A worker last seen exactly at the cutoff is alive; one seen a microsecond earlier is not. */
  lemma AliveBoundaryInclusive(w: Worker, now: Timestamp, settings: Settings)
    ensures w.lastSeen == Some(WorkerTimeoutAgo(now, settings)) ==> WorkerCounts([w], now, settings)["alive"] == 1
    ensures w.lastSeen == Some(WorkerTimeoutAgo(now, settings) - 1) ==> WorkerCounts([w], now, settings)["alive"] == 0
  {

  }

  /** As time passes with no worker reporting in, the "alive" count can only drop. */
  lemma AliveShrinksOverTime(workers: seq<Worker>, now: Timestamp, later: Timestamp, settings: Settings)
    requires now <= later
    ensures WorkerCounts(workers, later, settings)["alive"] <= WorkerCounts(workers, now, settings)["alive"]
  {
    CountMonotone(workers, SeenSince(WorkerTimeoutAgo(later, settings)), SeenSince(WorkerTimeoutAgo(now, settings)));
  }

  // ---------------------------------------------------------------------
  // Queue length in seconds
  // ---------------------------------------------------------------------

  /** Task states counted as queued or running, selected by their stored strings. */
  function IsOpen(s: TaskState): bool
  {
    s.Value() in ["NEW", "ASSIGNED"]
  }

  lemma OpenStates(s: TaskState)
    ensures IsOpen(s) <==> s == NEW || s == ASSIGNED
  {
  }

  /** The document with the given id (the join on the primary key), if any. */
  function FindDocument(documents: seq<Document>, id: Uuid): (d: Option<Document>)
    ensures d.Some? ==> d.value in documents && d.value.id == id
    ensures d.None? <==> forall doc :: doc in documents ==> doc.id != id
  {
    if documents == [] then None
    else if documents[0].id == id then Some(documents[0])
    else FindDocument(documents[1..], id)
  }

  /** The attempt a nullable reference points at (the outer join), if any. */
  function FindAttempt(attempts: seq<TaskAttempt>, id: Option<Uuid>): (a: Option<TaskAttempt>)
    ensures a.Some? ==> a.value in attempts && id == Some(a.value.id)
    ensures a.None? <==> id.None? || forall x :: x in attempts ==> x.id != id.value
  {
    if id.None? || attempts == [] then None
    else if attempts[0].id == id.value then Some(attempts[0])
    else FindAttempt(attempts[1..], id)
  }

  /** Progress of the task's current attempt, with a missing attempt or progress read as 0. */
  function ProgressOrZero(attempts: seq<TaskAttempt>, t: Task): real
  {
    var a := FindAttempt(attempts, t.currentAttemptId);
    if a.Some? && a.value.progress.Some? then a.value.progress.value else 0.0
  }

  /**
   * Seconds of media still to process for `t`, if it is an open task of
   * type `ty` whose document exists and has a duration; 0 otherwise.
   */
  function QueueTerm(documents: seq<Document>, attempts: seq<TaskAttempt>, ty: TaskType): (term: Task -> real)
  {
    (t: Task) =>
      if t.taskType != ty || !IsOpen(t.state) then 0.0
      else
        var d := FindDocument(documents, t.documentId);
        if d.None? || d.value.duration.None? then 0.0
        else d.value.duration.value * (1.0 - ProgressOrZero(attempts, t))
  }

  /** Queue length, in seconds of media, of the tasks of one type. */
  function QueueBacklog(snap: Snapshot, ty: TaskType): (seconds: real)
  {
    Sum(snap.tasks, QueueTerm(snap.documents, snap.attempts, ty))
  }

  /** The queue gauge's values: every task type, with its queue length. */
  function QueueSeconds(snap: Snapshot): (seconds: map<TaskType, real>)
    ensures forall ty: TaskType :: ty in seconds
  {
    EnumerationsComplete();
    map ty | ty in AllTaskTypes :: QueueBacklog(snap, ty)
  }

  /**
   * Worked values: a new task on a 120-second document contributes 120
   * seconds, or 60 once its attempt reports progress 0.5; a completed task
   * contributes nothing.
   */
  lemma QueueSecondsExamples(t: Task, doc: Document, attempt: TaskAttempt)
    requires t.taskType == TRANSCRIBE && t.documentId == doc.id && doc.duration == Some(120.0)
    ensures t.state == NEW && t.currentAttemptId.None? ==>
      QueueSeconds(Snapshot([t], [], [doc], [], []))[TRANSCRIBE] == 120.0
    ensures t.state == NEW && t.currentAttemptId == Some(attempt.id) && attempt.progress == Some(0.5) ==>
      QueueSeconds(Snapshot([t], [attempt], [doc], [], []))[TRANSCRIBE] == 60.0
    ensures t.state == COMPLETED ==>
      QueueSeconds(Snapshot([t], [attempt], [doc], [], []))[TRANSCRIBE] == 0.0
  {
    EnumerationsComplete();
    assert [t][..0] == [];
    assert FindDocument([doc], t.documentId) == Some(doc);
    var none := Snapshot([t], [], [doc], [], []);
    var some := Snapshot([t], [attempt], [doc], [], []);
    assert QueueSeconds(none)[TRANSCRIBE] == QueueBacklog(none, TRANSCRIBE);
    assert QueueSeconds(some)[TRANSCRIBE] == QueueBacklog(some, TRANSCRIBE);
    assert QueueBacklog(none, TRANSCRIBE) == Sum([t][..0], QueueTerm([doc], [], TRANSCRIBE)) + QueueTerm([doc], [], TRANSCRIBE)(t);
    assert QueueBacklog(some, TRANSCRIBE) == Sum([t][..0], QueueTerm([doc], [attempt], TRANSCRIBE)) + QueueTerm([doc], [attempt], TRANSCRIBE)(t);
    if t.currentAttemptId == Some(attempt.id) {
      assert FindAttempt([attempt], t.currentAttemptId) == Some(attempt);
    }
  }

  /** Adding a task that is not open (completed or failed) leaves every queue length unchanged. */
  lemma ClosedTasksDoNotQueue(snap: Snapshot, t: Task, ty: TaskType)
    requires t.state == COMPLETED || t.state == FAILED
    ensures QueueBacklog(snap.(tasks := snap.tasks + [t]), ty) == QueueBacklog(snap, ty)
  {

  }

  /** The queue length of a list of tasks is the sum of the queue lengths of its parts. */
  lemma QueueBacklogAdditive(snap: Snapshot, more: seq<Task>, ty: TaskType)
    ensures QueueBacklog(snap.(tasks := snap.tasks + more), ty)
         == QueueBacklog(snap, ty) + QueueBacklog(snap.(tasks := more), ty)
  {
    SumAppend(snap.tasks, more, QueueTerm(snap.documents, snap.attempts, ty));
  }

  /** Seconds of media of `t` if it were untouched: its duration when it counts at all, else 0. */
  function UntouchedTerm(documents: seq<Document>, ty: TaskType): Task -> real
  {
    (t: Task) =>
      if t.taskType != ty || !IsOpen(t.state) then 0.0
      else
        var d := FindDocument(documents, t.documentId);
        if d.None? || d.value.duration.None? then 0.0 else d.value.duration.value
  }

  function Zero(t: Task): real
  {
    0.0
  }

  /**
   * With non-negative durations and progress within [0, 1], the queue
   * length of a type lies between zero and the total duration of its open
   * tasks.
   */
  lemma QueueBacklogBounds(snap: Snapshot, ty: TaskType)
    requires forall d :: d in snap.documents && d.duration.Some? ==> d.duration.value >= 0.0
    requires forall a :: a in snap.attempts && a.progress.Some? ==> 0.0 <= a.progress.value <= 1.0
    ensures 0.0 <= QueueBacklog(snap, ty) <= Sum(snap.tasks, UntouchedTerm(snap.documents, ty))
  {
    var f := QueueTerm(snap.documents, snap.attempts, ty);
    var hi := UntouchedTerm(snap.documents, ty);
    forall i | 0 <= i < |snap.tasks|
      ensures Zero(snap.tasks[i]) <= f(snap.tasks[i]) <= hi(snap.tasks[i])
    {
      var t := snap.tasks[i];
      var d := FindDocument(snap.documents, t.documentId);
      if t.taskType == ty && IsOpen(t.state) && d.Some? && d.value.duration.Some? {
        var p := ProgressOrZero(snap.attempts, t);
        var a := FindAttempt(snap.attempts, t.currentAttemptId);
        assert a.Some? && a.value.progress.Some? ==> a.value in snap.attempts;
        assert 0.0 <= p <= 1.0;
        assert d.value in snap.documents;
        ScaledWithin(d.value.duration.value, 1.0 - p);
        assert f(t) == d.value.duration.value * (1.0 - p);
        assert hi(t) == d.value.duration.value;
      }
    }
    SumBounds(snap.tasks, Zero, f, hi);
    SumOfZeros(snap.tasks, Zero);
  }

  /** A row of the grouped queue query: a task type and its summed remaining seconds. */
  datatype QueueRow = QueueRow(taskType: TaskType, seconds: real)

  /** `t` takes part in the queue query: it is open and its document exists. */
  predicate JoinsQueue(documents: seq<Document>, t: Task)
  {
    IsOpen(t.state) && FindDocument(documents, t.documentId).Some?
  }

  /**
   * `rows` can be the result of the queue query: every row carries the
   * queue length of its type, and every type with an open task whose
   * document exists has a row.
   */
  ghost predicate IsQueueResult(snap: Snapshot, rows: seq<QueueRow>)
  {
    && (forall i :: 0 <= i < |rows| ==> rows[i].seconds == QueueBacklog(snap, rows[i].taskType))
    && (forall t :: t in snap.tasks && JoinsQueue(snap.documents, t) ==>
          exists i :: 0 <= i < |rows| && rows[i].taskType == t.taskType)
  }

  ghost predicate HasQueueRow(rows: seq<QueueRow>, ty: TaskType)
  {
    exists i :: 0 <= i < |rows| && rows[i].taskType == ty
  }

  /** A type without a row in a query result has queue length zero. */
  lemma MissingQueueRowIsZero(snap: Snapshot, rows: seq<QueueRow>, ty: TaskType)
    requires IsQueueResult(snap, rows)
    requires !HasQueueRow(rows, ty)
    ensures QueueBacklog(snap, ty) == 0.0
  {
    var f := QueueTerm(snap.documents, snap.attempts, ty);
    forall i | 0 <= i < |snap.tasks| ensures f(snap.tasks[i]) == 0.0 {
      var t := snap.tasks[i];
      assert t in snap.tasks;
      if t.taskType == ty && IsOpen(t.state) && FindDocument(snap.documents, t.documentId).Some? {
        assert JoinsQueue(snap.documents, t);
        assert false;
      }
    }
    SumOfZeros(snap.tasks, f);
  }

  /**
   * Refresh of the queue gauge: start from zero for every task type, then
   * overwrite the types the grouped query returned.
   */
  method RefreshQueue(snap: Snapshot, rows: seq<QueueRow>) returns (seconds: map<TaskType, real>)
    requires IsQueueResult(snap, rows)
    ensures seconds == QueueSeconds(snap)
  {
    EnumerationsComplete();
    seconds := map ty | ty in AllTaskTypes :: 0.0;
    for i := 0 to |rows|
      invariant seconds.Keys == QueueSeconds(snap).Keys
      invariant forall ty :: ty in seconds ==>
        seconds[ty] == if HasQueueRow(rows[..i], ty) then QueueBacklog(snap, ty) else 0.0
    {
      var ty := rows[i].taskType;
      seconds := seconds[ty := rows[i].seconds];
      forall k | k in seconds
        ensures seconds[k] == if HasQueueRow(rows[..i + 1], k) then QueueBacklog(snap, k) else 0.0
      {
        if k != ty {
          if HasQueueRow(rows[..i + 1], k) {
            var j :| 0 <= j < i + 1 && rows[..i + 1][j].taskType == k;
            assert rows[..i][j].taskType == k;
          }
        } else {
          assert rows[..i + 1][i].taskType == k;
        }
      }
    }
    assert rows[..|rows|] == rows;
    forall ty | ty in seconds
      ensures seconds[ty] == QueueSeconds(snap)[ty]
    {
      if !HasQueueRow(rows, ty) {
        MissingQueueRowIsZero(snap, rows, ty);
      }
    }
  }

  /** Some open task of type `ty` has its document in the snapshot. */
  predicate HasQueuedTask(snap: Snapshot, ty: TaskType)
  {
    exists t :: t in snap.tasks && t.taskType == ty && JoinsQueue(snap.documents, t)
  }

  /** The queue query's answer: one row per type with a task in the join, in the order of `types`. */
  function QueueRows(snap: Snapshot, types: seq<TaskType>): (rows: seq<QueueRow>)
    ensures forall i :: 0 <= i < |rows| ==> rows[i].seconds == QueueBacklog(snap, rows[i].taskType)
    ensures forall ty :: ty in types && HasQueuedTask(snap, ty) ==> HasQueueRow(rows, ty)
  {
    if types == [] then []
    else
      var rest := QueueRows(snap, types[1..]);
      if HasQueuedTask(snap, types[0]) then
        var rows := [QueueRow(types[0], QueueBacklog(snap, types[0]))] + rest;
        assert forall ty :: HasQueueRow(rest, ty) ==> HasQueueRow(rows, ty) by {
          forall ty | HasQueueRow(rest, ty) ensures HasQueueRow(rows, ty) {
            var j :| 0 <= j < |rest| && rest[j].taskType == ty;
            assert rows[j + 1].taskType == ty;
          }
        }
        assert rows[0].taskType == types[0];
        rows
      else rest
  }

  /** The canonical answer of the queue query qualifies as its result. */
  lemma QueueRowsAreAResult(snap: Snapshot)
    ensures IsQueueResult(snap, QueueRows(snap, AllTaskTypes))
  {
    EnumerationsComplete();
    var rows := QueueRows(snap, AllTaskTypes);
    forall t | t in snap.tasks && JoinsQueue(snap.documents, t)
      ensures exists i :: 0 <= i < |rows| && rows[i].taskType == t.taskType
    {
      assert HasQueuedTask(snap, t.taskType);
      assert HasQueueRow(rows, t.taskType);
    }
  }

  // ---------------------------------------------------------------------
  // Registry
  // ---------------------------------------------------------------------

  datatype MetricKind = TasksInStateMetric | WorkersMetric | UsersMetric | DocumentsMetric | QueueMetric

  /** The metrics created at start-up, in order. */
  const MetricClasses: seq<MetricKind> :=
    [TasksInStateMetric, WorkersMetric, UsersMetric, DocumentsMetric, QueueMetric]

  /** The values a metric's gauge holds after a refresh. */
  datatype Reading =
    | TaskCounts(counts: map<StateAndType, nat>)
    | WorkerGroups(groups: map<string, nat>)
    | Total(total: nat)
    | QueueLength(seconds: map<TaskType, real>)

  /** What refreshing a metric of the given kind reads from a snapshot, at clock reading `now`. */
  function ReadingOf(kind: MetricKind, snap: Snapshot, now: Timestamp, settings: Settings): (r: Reading)
  {
    match kind
    case TasksInStateMetric => TaskCounts(TasksInState(snap.tasks))
    case WorkersMetric => WorkerGroups(WorkerCounts(snap.workers, now, settings))
    case UsersMetric => Total(|snap.users|)
    case DocumentsMetric => Total(|snap.documents|)
    case QueueMetric => QueueLength(QueueSeconds(snap))
  }

  /** Refreshes one metric against the snapshot, running its query and filling its values. */
  method RefreshMetric(kind: MetricKind, snap: Snapshot, now: Timestamp, settings: Settings) returns (r: Reading)
    ensures r == ReadingOf(kind, snap, now, settings)
  {
    match kind {
      case TasksInStateMetric =>
        var rows := TaskCountRows(snap.tasks, AllPairs);
        TaskCountRowsAreAResult(snap.tasks);
        var counts := RefreshTasksInState(snap.tasks, rows);
        r := TaskCounts(counts);
      case WorkersMetric =>
        r := WorkerGroups(WorkerCounts(snap.workers, now, settings));
      case UsersMetric =>
        r := Total(|snap.users|);
      case DocumentsMetric =>
        r := Total(|snap.documents|);
      case QueueMetric =>
        var rows := QueueRows(snap, AllTaskTypes);
        QueueRowsAreAResult(snap);
        var seconds := RefreshQueue(snap, rows);
        r := QueueLength(seconds);
    }
  }

  /**
   * How many of `kinds`, from the front, can be created before one whose
   * collector is already in `registered` (the collector registry rejects a
   * second collector of the same name).
   */
  function RegistrablePrefix(kinds: seq<MetricKind>, registered: seq<MetricKind>): (n: nat)
    ensures n <= |kinds|
    ensures forall i :: 0 <= i < n ==> kinds[i] !in registered
    ensures n < |kinds| ==> kinds[n] in registered
  {
    if kinds == [] || kinds[0] in registered then 0
    else 1 + RegistrablePrefix(kinds[1..], registered)
  }

  /** The first initialisation registers every kind; a second one registers nothing. */
  lemma InitialisesOnce()
    ensures RegistrablePrefix(MetricClasses, []) == |MetricClasses|
    ensures RegistrablePrefix(MetricClasses, MetricClasses) == 0
  {
  }

  /** The list of live metrics that the periodic refresh walks through. */
  class MetricRegistry {
    var metrics: seq<MetricKind>

    constructor ()
      ensures metrics == []
    {
      metrics := [];
    }

    /**
     * Creates one metric of each kind, in the fixed order. Creating a
     * collector whose kind is already registered fails: the metrics created
     * before it stay registered and the rest are not created.
     */
    method InitMetrics() returns (ok: bool)
      modifies this
      ensures ok <==> RegistrablePrefix(MetricClasses, old(metrics)) == |MetricClasses|
      ensures metrics == old(metrics) + MetricClasses[..RegistrablePrefix(MetricClasses, old(metrics))]
    {
      var i := 0;
      while i < |MetricClasses|
        invariant i <= RegistrablePrefix(MetricClasses, old(metrics))
        invariant metrics == old(metrics) + MetricClasses[..i]
      {
        assert MetricClasses[i] !in MetricClasses[..i];
        if MetricClasses[i] in metrics {
          return false;
        }
        metrics := metrics + [MetricClasses[i]];
        assert MetricClasses[..i + 1] == MetricClasses[..i] + [MetricClasses[i]];
        i := i + 1;
      }
      return true;
    }

    /** Refreshes every registered metric, in registration order, against one snapshot. */
    method RefreshMetrics(snap: Snapshot, now: Timestamp, settings: Settings) returns (readings: seq<Reading>)
      ensures |readings| == |metrics|
      ensures forall i :: 0 <= i < |metrics| ==> readings[i] == ReadingOf(metrics[i], snap, now, settings)
    {
      readings := [];
      for i := 0 to |metrics|
        invariant |readings| == i
        invariant forall j :: 0 <= j < i ==> readings[j] == ReadingOf(metrics[j], snap, now, settings)
      {
        var r := RefreshMetric(metrics[i], snap, now, settings);
        readings := readings + [r];
      }
    }
  }

  // ---------------------------------------------------------------------
  // Credentials for the metrics endpoint
  // ---------------------------------------------------------------------

  /** The rejection: status 401 with a Basic authentication challenge. */
  datatype AuthError = Unauthorized(statusCode: int, wwwAuthenticate: string)

  const Rejection: AuthError := Unauthorized(401, "Basic")

  /**
   * Accepts the request, yielding the user name, exactly when both the user
   * name and the password equal the configured ones; otherwise rejects it,
   * always with the same error.
   */
  function MetricsAuth(username: string, password: string, settings: Settings): (r: Result<string, AuthError>)
    ensures r.Ok? <==> username == settings.metricsUsername && password == settings.metricsPassword
    ensures r.Ok? ==> r.value == username
    ensures r.Err? ==> r.error == Rejection
  {
    var correctUsername := username == settings.metricsUsername;
    var correctPassword := password == settings.metricsPassword;
    if !(correctUsername && correctPassword) then Err(Rejection) else Ok(username)
  }

  /** A wrong user name and a wrong password are answered identically. */
  lemma RejectionRevealsNothing(u1: string, p1: string, u2: string, p2: string, settings: Settings)
    requires MetricsAuth(u1, p1, settings).Err? && MetricsAuth(u2, p2, settings).Err?
    ensures MetricsAuth(u1, p1, settings) == MetricsAuth(u2, p2, settings)
  {
  }
}
