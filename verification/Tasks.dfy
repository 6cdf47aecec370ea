/** Tasks, sessions and their stores (src/orchestrator/task_manager.py). */
module Tasks {
  import opened Wrappers
  import opened Text
  import opened StateMachine

  datatype Task = Task(
    taskId: string,
    sessionId: string,
    epicId: string,
    state: TaskState,
    createdAt: int,
    updatedAt: int,
    failCount: nat,
    currentAgent: Option<string>,
    gitSha: Option<string>,
    artifactPaths: seq<string>)

  datatype Session = Session(
    sessionId: string,
    tenantId: string,
    currentGitSha: string,
    activeEpicIds: seq<string>,
    createdAt: int,
    status: string)

  /** The ISO-8601 library and the enumeration's value lookup, taken as given. */
  datatype Libraries = Libraries(
    stateText: TaskState -> string,
    stateOf: string -> Option<TaskState>,
    isoformat: int -> string,
    fromIso: string -> Option<int>)

  ghost predicate Inverse(lib: Libraries)
  {
    && (forall s :: lib.stateOf(lib.stateText(s)) == Some(s))
    && (forall t :: lib.fromIso(lib.isoformat(t)) == Some(t))
  }

  // ---- the task's hash ----

  datatype TaskField =
    | TASK_ID | SESSION_ID | EPIC_ID | STATE | FAIL_COUNT | CREATED_AT | UPDATED_AT
    | CURRENT_AGENT | GIT_SHA | ARTIFACT_PATHS

  type TaskHash = map<TaskField, string>

  function NonEmpty(o: Option<string>): Option<string>
  {
    if o == Some("") then None else o
  }

  function TaskText(t: Task, field: TaskField, lib: Libraries): Option<string>
  {
    match field
    case TASK_ID => Some(t.taskId)
    case SESSION_ID => Some(t.sessionId)
    case EPIC_ID => Some(t.epicId)
    case STATE => Some(lib.stateText(t.state))
    case FAIL_COUNT => Some(Decimal(t.failCount))
    case CREATED_AT => Some(lib.isoformat(t.createdAt))
    case UPDATED_AT => Some(lib.isoformat(t.updatedAt))
    case CURRENT_AGENT => NonEmpty(t.currentAgent)
    case GIT_SHA => NonEmpty(t.gitSha)
    case ARTIFACT_PATHS => if t.artifactPaths == [] then None else Some(Join(t.artifactPaths, ','))
  }

  function TaskToDict(t: Task, lib: Libraries): TaskHash
  {
    map field: TaskField | TaskText(t, field, lib).Some? :: TaskText(t, field, lib).value
  }

  function Get(data: TaskHash, field: TaskField): Option<string>
  {
    if field in data then Some(data[field]) else None
  }

  /** None stands for the ValueError of a field that does not parse. */
  function TaskFromDict(data: TaskHash, lib: Libraries, now: int): Option<Task>
  {
    var state := if STATE in data then lib.stateOf(data[STATE]) else Some(Pending);
    var count := if FAIL_COUNT in data then ParseDecimal(data[FAIL_COUNT]) else Some(0);
    var created := if CREATED_AT in data then lib.fromIso(data[CREATED_AT]) else Some(now);
    var updated := if UPDATED_AT in data then lib.fromIso(data[UPDATED_AT]) else Some(now);
    if state.None? || count.None? || created.None? || updated.None? then None
    else Some(Task(
      Get(data, TASK_ID).GetOr(""), Get(data, SESSION_ID).GetOr(""), Get(data, EPIC_ID).GetOr(""),
      state.value, created.value, updated.value, count.value,
      Get(data, CURRENT_AGENT), Get(data, GIT_SHA), ReadList(Get(data, ARTIFACT_PATHS).GetOr(""))))
  }

  /** Where the hash keeps what: an absent or empty agent or SHA and an empty list have no field. */
  lemma TaskHashHolds(t: Task, lib: Libraries)
    ensures var data := TaskToDict(t, lib);
      && Get(data, TASK_ID) == Some(t.taskId) && Get(data, SESSION_ID) == Some(t.sessionId) && Get(data, EPIC_ID) == Some(t.epicId)
      && Get(data, STATE) == Some(lib.stateText(t.state)) && Get(data, FAIL_COUNT) == Some(Decimal(t.failCount))
      && Get(data, CREATED_AT) == Some(lib.isoformat(t.createdAt)) && Get(data, UPDATED_AT) == Some(lib.isoformat(t.updatedAt))
      && Get(data, CURRENT_AGENT) == (if t.currentAgent.GetOr("") == "" then None else t.currentAgent)
      && Get(data, GIT_SHA) == (if t.gitSha.GetOr("") == "" then None else t.gitSha)
      && Get(data, ARTIFACT_PATHS) == if t.artifactPaths == [] then None else Some(Join(t.artifactPaths, ','))
  {
  }

  /** Reading fails exactly for a state, a count or a time that does not parse; what is missing
      is a PENDING task without failures, created now. */
  lemma TaskReadsExactly(data: TaskHash, lib: Libraries, now: int)
    ensures TaskFromDict(data, lib, now).None? <==>
      || (STATE in data && lib.stateOf(data[STATE]).None?) || (FAIL_COUNT in data && ParseDecimal(data[FAIL_COUNT]).None?)
      || (CREATED_AT in data && lib.fromIso(data[CREATED_AT]).None?)
      || (UPDATED_AT in data && lib.fromIso(data[UPDATED_AT]).None?)
    ensures TaskFromDict(map[], lib, now) == Some(Task("", "", "", Pending, now, now, 0, None, None, []))
  {
  }

  predicate StorableTask(t: Task)
  {
    && t.currentAgent != Some("") && t.gitSha != Some("")
    && t.artifactPaths != [""] && Free(t.artifactPaths, ',')
  }

  /** What a write leaves in the hash of an existing task: HSET sets the fields the new
      encoding has and keeps the others, so an absent agent, SHA or path list does not
      erase the stored one. */
  function Merged(stored: Task, t: Task): Task
  {
    t.(currentAgent := if NonEmpty(t.currentAgent).None? then stored.currentAgent else t.currentAgent,
       gitSha := if NonEmpty(t.gitSha).None? then stored.gitSha else t.gitSha,
       artifactPaths := if t.artifactPaths == [] then stored.artifactPaths else t.artifactPaths)
  }

  /** A task read back from its hash is the task written, exactly when its optional texts
      and its paths are storable. */
  lemma TaskRoundTrip(t: Task, lib: Libraries, now: int)
    requires Inverse(lib)
    ensures TaskFromDict(TaskToDict(t, lib), lib, now) == Some(t) <==> StorableTask(t)
  {
    var data := TaskToDict(t, lib);
    assert forall field :: Get(data, field) == TaskText(t, field, lib);
    assert lib.stateOf(lib.stateText(t.state)) == Some(t.state);
    assert lib.fromIso(lib.isoformat(t.createdAt)) == Some(t.createdAt);
    assert lib.fromIso(lib.isoformat(t.updatedAt)) == Some(t.updatedAt);
    DecimalRoundTrip(t.failCount);
    ListRoundTrip(t.artifactPaths);
    assert Get(data, ARTIFACT_PATHS).GetOr("") == Join(t.artifactPaths, ',');
    assert STATE in data && FAIL_COUNT in data && CREATED_AT in data && UPDATED_AT in data;
  }

  lemma MergedText(stored: Task, t: Task, field: TaskField, lib: Libraries)
    requires StorableTask(stored) && StorableTask(t)
    ensures TaskText(Merged(stored, t), field, lib)
            == if TaskText(t, field, lib).Some? then TaskText(t, field, lib) else TaskText(stored, field, lib)
  {
  }

  /** Writing a task over a stored one, field by field in the hash, is Merged, and the
      merged task reads back whole. */
  lemma OverwriteIsMerged(stored: Task, t: Task, lib: Libraries, now: int)
    requires Inverse(lib) && StorableTask(stored) && StorableTask(t)
    ensures TaskToDict(stored, lib) + TaskToDict(t, lib) == TaskToDict(Merged(stored, t), lib)
    ensures TaskFromDict(TaskToDict(stored, lib) + TaskToDict(t, lib), lib, now) == Some(Merged(stored, t))
  {
    HashesMerge(stored, t, lib);
    TaskRoundTrip(Merged(stored, t), lib, now);
  }

  lemma HashesMerge(stored: Task, t: Task, lib: Libraries)
    requires StorableTask(stored) && StorableTask(t)
    ensures TaskToDict(stored, lib) + TaskToDict(t, lib) == TaskToDict(Merged(stored, t), lib)
  {
    var whole, merged := TaskToDict(stored, lib) + TaskToDict(t, lib), TaskToDict(Merged(stored, t), lib);
    forall field: TaskField
      ensures (field in whole <==> field in merged) && (field in whole ==> whole[field] == merged[field])
    {
      MergedText(stored, t, field, lib);
    }
  }

  // ---- the session's hash ----

  datatype SessionField = S_ID | S_TENANT | S_SHA | S_EPICS | S_CREATED | S_STATUS

  function SessionToDict(s: Session, lib: Libraries): map<SessionField, string>
  {
    map[S_ID := s.sessionId, S_TENANT := s.tenantId, S_SHA := s.currentGitSha,
        S_EPICS := Join(s.activeEpicIds, ','), S_CREATED := lib.isoformat(s.createdAt), S_STATUS := s.status]
  }

  function Lookup(data: map<SessionField, string>, field: SessionField, missing: string): string
  {
    if field in data then data[field] else missing
  }

  function SessionFromDict(data: map<SessionField, string>, lib: Libraries, now: int): Option<Session>
  {
    var created := if S_CREATED in data then lib.fromIso(data[S_CREATED]) else Some(now);
    if created.None? then None
    else Some(Session(
      Lookup(data, S_ID, ""), Lookup(data, S_TENANT, ""), Lookup(data, S_SHA, ""),
      ReadList(Lookup(data, S_EPICS, "")), created.value, Lookup(data, S_STATUS, "active")))
  }

  lemma SessionRoundTrip(s: Session, lib: Libraries, now: int)
    requires Inverse(lib)
    ensures SessionFromDict(SessionToDict(s, lib), lib, now) == Some(s)
            <==> s.activeEpicIds != [""] && Free(s.activeEpicIds, ',')
  {
    ListRoundTrip(s.activeEpicIds);
    assert lib.fromIso(lib.isoformat(s.createdAt)) == Some(s.createdAt);
  }

  /** A missing session reads as an active one without anything in it, created now. */
  lemma MissingSessionReadsAs(lib: Libraries, now: int)
    ensures SessionFromDict(map[], lib, now) == Some(Session("", "", "", [], now, "active"))
  {
  }
}
