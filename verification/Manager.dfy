/** The Manager Agent (src/orchestrator/manager_agent.py) over the task store
    (src/orchestrator/task_manager.py:184-286).

    A handler is a sequence of awaited calls. `fuel` is the number of calls that still
    complete: when it runs out the next call raises, or the process dies there, and what
    the earlier calls did stays done. */
module Manager {
  import opened Wrappers
  import opened Text
  import opened Events
  import opened StateMachine
  import opened Tasks

  const RLM_FAIL_THRESHOLD: nat := 4

  const HANDLED_TYPES: set<EventType> := {
    TaskCreated, TaskDispatched, AgentCompleted, AgentError, TaskFailed, GateApproved, GateRejected, PatchCreated}

  /** What has happened to a task since it was last created. No handler reads it. */
  datatype History = History(path: seq<TaskState>, increments: nat, completions: nat)

  datatype Managed = Managed(
    tasks: map<string, Task>,
    shas: map<string, string>,      // current Git SHA per session
    published: seq<Event>,
    history: map<string, History>)

  function HistoryOf(s: Managed, id: string): History
  {
    if id in s.history then s.history[id] else History([], 0, 0)
  }

  /** The Git gateway: whether writing is allowed, and what applying a patch and recording
      its SHA comes to; None is an exception. */
  datatype Git = Git(writeAllowed: bool, apply: string -> Option<string>)

  datatype Exec = Exec(s: Managed, fuel: nat, live: bool)

  // ---- awaited calls ----

  function Await(x: Exec): Exec
  {
    if !x.live then x
    else if x.fuel == 0 then x.(live := false)
    else x.(fuel := x.fuel - 1)
  }

  /** What a created task's hash holds: over an earlier hash, only the written fields. */
  function Created(s: Managed, t: Task): Managed
  {
    s.(tasks := s.tasks[t.taskId := if t.taskId in s.tasks then Merged(s.tasks[t.taskId], t) else t],
       history := s.history[t.taskId := History([t.state], t.failCount, 0)])
  }

  function CreateTask(x: Exec, t: Task): Exec
  {
    var y := Await(x);
    if y.live then y.(s := Created(y.s, t)) else y
  }

  function Transitioned(s: Managed, id: string, target: TaskState, agent: Option<string>, now: int): Managed
    requires id in s.tasks
  {
    var t := s.tasks[id];
    var u := t.(state := target, updatedAt := now, currentAgent := if agent.Some? then agent else t.currentAgent);
    s.(tasks := s.tasks[id := Merged(t, u)],
       history := s.history[id := HistoryOf(s, id).(path := HistoryOf(s, id).path + [target])])
  }

  /** `update_state`: raises for an unknown task and for a transition outside the table. */
  function UpdateState(x: Exec, id: string, target: TaskState, agent: Option<string>, now: int): Exec
  {
    var y := Await(x);
    if !y.live then y
    else if id in y.s.tasks && CanTransition(y.s.tasks[id].state, target)
    then y.(s := Transitioned(y.s, id, target, agent, now))
    else y.(live := false)
  }

  function Incremented(s: Managed, id: string, now: int): Managed
    requires id in s.tasks
  {
    var t := s.tasks[id];
    s.(tasks := s.tasks[id := t.(failCount := t.failCount + 1, updatedAt := now)],
       history := s.history[id := HistoryOf(s, id).(increments := HistoryOf(s, id).increments + 1)])
  }

  function Increment(x: Exec, id: string, now: int): Exec
    requires id in x.s.tasks
  {
    var y := Await(x);
    if y.live then y.(s := Incremented(y.s, id, now)) else y
  }

  function Announced(s: Managed, e: Event): Managed
  {
    s.(published := s.published + [e])
  }

  function Publish(x: Exec, e: Event): Exec
  {
    var y := Await(x);
    if y.live then y.(s := Announced(y.s, e)) else y
  }

  /** The completion event, which history counts. */
  function Completed(s: Managed, id: string, e: Event): Managed
  {
    Announced(s, e).(history := s.history[id := HistoryOf(s, id).(completions := HistoryOf(s, id).completions + 1)])
  }

  function PublishCompletion(x: Exec, id: string, e: Event): Exec
  {
    var y := Await(x);
    if y.live then y.(s := Completed(y.s, id, e)) else y
  }

  function RecordSha(x: Exec, session: string, sha: string): Exec
  {
    var y := Await(x);
    if y.live then y.(s := y.s.(shas := y.s.shas[session := sha])) else y
  }

  // ---- events the handlers publish ----

  function Note(t: EventType, session: string, id: string, epic: Option<string>, mode: string, now: int,
                metadata: map<string, string>): Event
  {
    Event(t, session, now, None, epic, Some(id), None, [], mode, None, None, metadata)
  }

  function Meta(e: Event, name: string, missing: string): string
  {
    if name in e.metadata then e.metadata[name] else missing
  }

  function ModeFor(failCount: nat): string
  {
    if failCount > RLM_FAIL_THRESHOLD then "rlm" else "normal"
  }

  // ---- handlers ----

  function HandleTaskCreated(x: Exec, e: Event, now: int): Exec
  {
    CreateTask(x, Task(e.taskId.GetOr(""), e.sessionId, e.epicId.GetOr(""), Pending, now, now, 0, None, e.gitSha, []))
  }

  function HandleTaskDispatched(x: Exec, e: Event, id: string, now: int): Exec
  {
    var y := Await(x);
    if !y.live || id !in y.s.tasks then y
    else UpdateState(y, id, InProgress, Some(Meta(e, "agent_type", "unknown")), now)
  }

  /** `_handle_task_failure`: count, and past the threshold call the debugger. */
  function HandleFailure(x: Exec, t: Task, id: string, message: string, now: int): Exec
    requires id in x.s.tasks
  {
    var y := Increment(x, id, now);
    if y.live && y.s.tasks[id].failCount > RLM_FAIL_THRESHOLD
    then Publish(y, DebuggerCall(t, id, y.s.tasks[id].failCount, message, now))
    else y
  }

  function DebuggerCall(t: Task, id: string, failCount: nat, message: string, now: int): Event
  {
    Note(AgentStarted, t.sessionId, id, Some(t.epicId), "rlm", now,
         map["agent_type" := "debugger", "fail_count" := Decimal(failCount), "error_message" := message])
  }

  /** The patch loop: the state after the patches that applied, and whether one failed. */
  function ApplyPatches(x: Exec, session: string, paths: seq<string>, git: Git): (r: (Exec, bool))
    ensures r.0.s.tasks == x.s.tasks && r.0.s.history == x.s.history && r.0.s.published == x.s.published
    decreases |paths|
  {
    if paths == [] then (x, false)
    else
      var y := Await(x);
      if !y.live then (y, false)
      else
        match git.apply(paths[0])
        case None => (y, true)
        case Some(sha) => ApplyPatches(RecordSha(y, session, sha), session, paths[1..], git)
  }

  predicate EndsWithPatch(p: string)
  {
    |p| >= 6 && p[|p| - 6..] == ".patch"
  }

  function PatchPaths(paths: seq<string>): seq<string>
  {
    if paths == [] then []
    else if EndsWithPatch(paths[0]) then [paths[0]] + PatchPaths(paths[1..])
    else PatchPaths(paths[1..])
  }

  function HandleAgentCompleted(x: Exec, e: Event, id: string, git: Git, now: int): Exec
  {
    var y := Await(x);
    if !y.live || id !in y.s.tasks then y
    else
      var (z, failed) := if git.writeAllowed then ApplyPatches(y, e.sessionId, PatchPaths(e.artifactPaths), git)
                         else (y, false);
      if !z.live then z
      else if failed then HandleFailure(z, y.s.tasks[id], id, "patch failed", now)
      else
        var u := UpdateState(z, id, Testing, None, now);
        if !u.live then u
        else Publish(u, Note(TaskDispatched, e.sessionId, id, None, "normal", now, map["agent_type" := "test-runner"]))
  }

  function HandleAgentFailure(x: Exec, e: Event, id: string, fallback: string, now: int): Exec
  {
    var y := Await(x);
    if !y.live || id !in y.s.tasks then y
    else HandleFailure(y, y.s.tasks[id], id, Meta(e, "error_message", fallback), now)
  }

  function HandleGateApproved(x: Exec, e: Event, id: string, now: int): Exec
  {
    var y := Await(x);
    if !y.live || id !in y.s.tasks || y.s.tasks[id].state != BlockedHitl then y
    else
      var u := UpdateState(y, id, Complete, None, now);
      if !u.live then u
      else PublishCompletion(u, id, CompletionNote(e, id, now))
  }

  function CompletionNote(e: Event, id: string, now: int): Event
  {
    Note(TaskCompleted, e.sessionId, id, None, "normal", now, map[])
  }

  /** Counts the failure first, so a rejection that then fails to move the task has still
      been counted. */
  function HandleGateRejected(x: Exec, e: Event, id: string, now: int): Exec
  {
    var y := Await(x);
    if !y.live || id !in y.s.tasks then y
    else
      var t := y.s.tasks[id];
      var c := Increment(y, id, now);
      if !c.live then c
      else
        var u := UpdateState(c, id, InProgress, None, now);
        if !u.live then u
        else Publish(u, RetryNote(e, id, t, c.s.tasks[id].failCount, now))
  }

  function RetryNote(e: Event, id: string, t: Task, failCount: nat, now: int): Event
  {
    var agent := if t.currentAgent.GetOr("") == "" then "coding-agent" else t.currentAgent.value;
    Note(AgentStarted, e.sessionId, id, Some(t.epicId), ModeFor(failCount), now,
         map["agent_type" := agent, "retry" := "true", "fail_count" := Decimal(failCount),
             "feedback" := Meta(e, "feedback", "Gate rejected")])
  }

  function HandlePatchCreated(x: Exec, e: Event, id: string, git: Git, now: int): Exec
  {
    if e.artifactPaths == [] || !git.writeAllowed then x
    else
      var y := Await(x);
      if !y.live then y
      else Publish(y, PatchNote(e, id, now, git.apply(e.artifactPaths[0])))
  }

  function PatchNote(e: Event, id: string, now: int, applied: Option<string>): Event
  {
    if applied.Some? then Note(PatchApplied, e.sessionId, id, None, "normal", now, map[]).(gitSha := applied)
    else Note(PatchRejected, e.sessionId, id, None, "normal", now, map[])
  }

  /** `handle`: the routing table. Every handler but the creating one ignores an event
      without a task. */
  function Handle(x: Exec, e: Event, git: Git, now: int): Exec
  {
    if e.eventType.TaskCreated? then HandleTaskCreated(x, e, now)
    else if e.taskId.GetOr("") == "" then x
    else
      var id := e.taskId.value;
      match e.eventType
      case TaskDispatched => HandleTaskDispatched(x, e, id, now)
      case AgentCompleted => HandleAgentCompleted(x, e, id, git, now)
      case AgentError => HandleAgentFailure(x, e, id, "Agent error", now)
      case TaskFailed => HandleAgentFailure(x, e, id, "Task failed", now)
      case GateApproved => HandleGateApproved(x, e, id, now)
      case GateRejected => HandleGateRejected(x, e, id, now)
      case PatchCreated => HandlePatchCreated(x, e, id, git, now)
      case _ => x
  }

  // ---- the invariant ----

  /** A task's state is where its path since creation has led, its fail count is the number
      of increments since creation, and its completion was announced at most once and only
      if it is COMPLETE. */
  predicate TaskSound(t: Task, h: History)
  {
    && IsPath(h.path) && h.path[0] == Pending && h.path[|h.path| - 1] == t.state
    && t.failCount == h.increments
    && h.completions <= if t.state == Complete then 1 else 0
  }

  predicate Sound(s: Managed)
  {
    s.tasks.Keys == s.history.Keys
    && forall id :: id in s.tasks ==> TaskSound(s.tasks[id], s.history[id])
  }

  /** What the manager may do to the store while it handles e: it announces no approval,
      and a task it makes COMPLETE is the task that e approves. */
  predicate Allowed(s: Managed, v: Managed, e: Event)
  {
    && s.published <= v.published
    && (forall i :: |s.published| <= i < |v.published| ==> v.published[i].eventType != GateApproved)
    && (forall id :: id in v.tasks && v.tasks[id].state == Complete ==>
          || (id in s.tasks && s.tasks[id].state == Complete)
          || (e.eventType == GateApproved && e.taskId == Some(id)))
  }

  lemma AllowedOn(s: Managed, u: Managed, v: Managed, e: Event)
    requires Allowed(s, u, e) && Allowed(u, v, e)
    ensures Allowed(s, v, e)
  {
    forall i | |s.published| <= i < |v.published| ensures v.published[i].eventType != GateApproved {
      if i < |u.published| {
        assert v.published[i] == u.published[i];
      }
    }
  }

  lemma CreateSound(s: Managed, t: Task, e: Event)
    requires Sound(s) && t.state == Pending && t.failCount == 0
    ensures Sound(Created(s, t)) && Allowed(s, Created(s, t), e)
  {
    var v := Created(s, t);
    assert TaskSound(v.tasks[t.taskId], v.history[t.taskId]);
  }

  lemma TransitionSound(s: Managed, id: string, target: TaskState, agent: Option<string>, now: int, e: Event)
    requires Sound(s) && id in s.tasks && CanTransition(s.tasks[id].state, target)
    requires target == Complete ==> e.eventType == GateApproved && e.taskId == Some(id)
    ensures var v := Transitioned(s, id, target, agent, now); Sound(v) && Allowed(s, v, e)
  {
    var v := Transitioned(s, id, target, agent, now);
    var path := s.history[id].path;
    assert TaskSound(s.tasks[id], s.history[id]);
    assert IsPath(path + [target]) by {
      forall i | 0 < i < |path + [target]| ensures CanTransition((path + [target])[i - 1], (path + [target])[i]) {
        if i < |path| {
          assert CanTransition(path[i - 1], path[i]);
        }
      }
    }
    assert TaskSound(v.tasks[id], v.history[id]);
  }

  lemma IncrementSound(s: Managed, id: string, now: int, e: Event)
    requires Sound(s) && id in s.tasks
    ensures var v := Incremented(s, id, now); Sound(v) && Allowed(s, v, e)
  {
    var v := Incremented(s, id, now);
    assert TaskSound(s.tasks[id], s.history[id]);
    assert TaskSound(v.tasks[id], v.history[id]);
  }

  lemma AnnounceSound(s: Managed, note: Event, e: Event)
    requires Sound(s) && note.eventType != GateApproved
    ensures Sound(Announced(s, note)) && Allowed(s, Announced(s, note), e)
  {
  }

  lemma CompletionSound(s: Managed, id: string, note: Event, e: Event)
    requires Sound(s) && id in s.tasks && s.tasks[id].state == Complete && s.history[id].completions == 0
    requires note.eventType != GateApproved
    ensures var v := Completed(s, id, note); Sound(v) && Allowed(s, v, e)
  {
    var v := Completed(s, id, note);
    assert TaskSound(s.tasks[id], s.history[id]);
    assert TaskSound(v.tasks[id], v.history[id]);
  }

  /** The stores after a stretch of handling. */
  predicate Kept(x: Exec, y: Exec, e: Event)
  {
    Sound(y.s) && Allowed(x.s, y.s, e)
  }

  lemma UpdateKept(x: Exec, id: string, target: TaskState, agent: Option<string>, now: int, e: Event)
    requires Sound(x.s) && (target == Complete ==> e.eventType == GateApproved && e.taskId == Some(id))
    ensures Kept(x, UpdateState(x, id, target, agent, now), e)
  {
    if id in x.s.tasks && CanTransition(x.s.tasks[id].state, target) {
      TransitionSound(x.s, id, target, agent, now, e);
    }
  }

  lemma PublishKept(x: Exec, note: Event, e: Event)
    requires Sound(x.s) && note.eventType != GateApproved
    ensures Kept(x, Publish(x, note), e)
  {
    AnnounceSound(x.s, note, e);
  }

  lemma IncrementKept(x: Exec, id: string, now: int, e: Event)
    requires Sound(x.s) && id in x.s.tasks
    ensures Kept(x, Increment(x, id, now), e)
  {
    IncrementSound(x.s, id, now, e);
  }

  lemma KeptOn(x: Exec, y: Exec, z: Exec, e: Event)
    requires Kept(x, y, e) && Kept(y, z, e)
    ensures Kept(x, z, e)
  {
    AllowedOn(x.s, y.s, z.s, e);
  }

  lemma FailureKept(x: Exec, t: Task, id: string, message: string, now: int, e: Event)
    requires Sound(x.s) && id in x.s.tasks
    ensures Kept(x, HandleFailure(x, t, id, message, now), e)
  {
    var y := Increment(x, id, now);
    IncrementKept(x, id, now, e);
    if !y.live {
      return;
    }
    var note := DebuggerCall(t, id, y.s.tasks[id].failCount, message, now);
    PublishKept(y, note, e);
    KeptOn(x, y, Publish(y, note), e);
  }

  lemma AgentFailureKept(x: Exec, e: Event, id: string, fallback: string, now: int)
    requires Sound(x.s)
    ensures Kept(x, HandleAgentFailure(x, e, id, fallback, now), e)
  {
    if id in x.s.tasks {
      FailureKept(Await(x), x.s.tasks[id], id, Meta(e, "error_message", fallback), now, e);
    }
  }

  lemma AgentCompletedKept(x: Exec, e: Event, id: string, git: Git, now: int)
    requires Sound(x.s)
    ensures Kept(x, HandleAgentCompleted(x, e, id, git, now), e)
  {
    var y := Await(x);
    if y.live && id in y.s.tasks {
      var (z, failed) := if git.writeAllowed then ApplyPatches(y, e.sessionId, PatchPaths(e.artifactPaths), git)
                         else (y, false);
      assert Sound(z.s) && Kept(x, z, e);
      if z.live && failed {
        FailureKept(z, y.s.tasks[id], id, "patch failed", now, e);
        KeptOn(x, z, HandleFailure(z, y.s.tasks[id], id, "patch failed", now), e);
      } else if z.live {
        var u := UpdateState(z, id, Testing, None, now);
        var note := Note(TaskDispatched, e.sessionId, id, None, "normal", now, map["agent_type" := "test-runner"]);
        UpdateKept(z, id, Testing, None, now, e);
        KeptOn(x, z, u, e);
        PublishKept(u, note, e);
        KeptOn(x, u, Publish(u, note), e);
      }
    }
  }

  lemma GateApprovedKept(x: Exec, e: Event, id: string, now: int)
    requires Sound(x.s) && e.eventType == GateApproved && e.taskId == Some(id)
    ensures Kept(x, HandleGateApproved(x, e, id, now), e)
  {
    var y := Await(x);
    if y.live && id in y.s.tasks && y.s.tasks[id].state == BlockedHitl {
      var u := UpdateState(y, id, Complete, None, now);
      UpdateKept(y, id, Complete, None, now, e);
      if u.live {
        NotYetAnnounced(y, id, now);
        CompletionKept(u, id, e, now);
        KeptOn(x, u, PublishCompletion(u, id, CompletionNote(e, id, now)), e);
      }
    }
  }

  /** A task that has just become COMPLETE has not been announced since its creation. */
  lemma NotYetAnnounced(y: Exec, id: string, now: int)
    requires Sound(y.s) && id in y.s.tasks && y.s.tasks[id].state == BlockedHitl
    requires UpdateState(y, id, Complete, None, now).live
    ensures var u := UpdateState(y, id, Complete, None, now);
      id in u.s.tasks && id in u.s.history && u.s.tasks[id].state == Complete && u.s.history[id].completions == 0
  {
    assert TaskSound(y.s.tasks[id], y.s.history[id]);
  }

  lemma CompletionKept(u: Exec, id: string, e: Event, now: int)
    requires Sound(u.s) && id in u.s.tasks && u.s.tasks[id].state == Complete && u.s.history[id].completions == 0
    ensures Kept(u, PublishCompletion(u, id, CompletionNote(e, id, now)), e)
  {
    CompletionSound(u.s, id, CompletionNote(e, id, now), e);
  }

  lemma GateRejectedKept(x: Exec, e: Event, id: string, now: int)
    requires Sound(x.s)
    ensures Kept(x, HandleGateRejected(x, e, id, now), e)
  {
    var y := Await(x);
    if y.live && id in y.s.tasks {
      var c := Increment(y, id, now);
      IncrementKept(y, id, now, e);
      if c.live {
        var u := UpdateState(c, id, InProgress, None, now);
        UpdateKept(c, id, InProgress, None, now, e);
        KeptOn(x, c, u, e);
        if u.live {
          var note := RetryNote(e, id, y.s.tasks[id], c.s.tasks[id].failCount, now);
          PublishKept(u, note, e);
          KeptOn(x, u, Publish(u, note), e);
        }
      }
    }
  }

  /** Whatever the event, and wherever the handler is cut short, the store stays sound, no
      approval is announced, and only the approved task becomes COMPLETE. */
  lemma HandleKept(x: Exec, e: Event, git: Git, now: int)
    requires Sound(x.s)
    ensures Kept(x, Handle(x, e, git, now), e)
  {
    if e.eventType.TaskCreated? {
      CreateSound(x.s, Task(e.taskId.GetOr(""), e.sessionId, e.epicId.GetOr(""), Pending, now, now, 0, None, e.gitSha, []), e);
    } else if e.taskId.GetOr("") != "" {
      var id := e.taskId.value;
      match e.eventType {
        case TaskDispatched => UpdateKept(Await(x), id, InProgress, Some(Meta(e, "agent_type", "unknown")), now, e);
        case AgentCompleted => AgentCompletedKept(x, e, id, git, now);
        case AgentError => AgentFailureKept(x, e, id, "Agent error", now);
        case TaskFailed => AgentFailureKept(x, e, id, "Task failed", now);
        case GateApproved => GateApprovedKept(x, e, id, now);
        case GateRejected => GateRejectedKept(x, e, id, now);
        case PatchCreated => PatchCreatedKept(x, e, id, git, now);
        case _ =>
      }
    }
  }

  lemma PatchCreatedKept(x: Exec, e: Event, id: string, git: Git, now: int)
    requires Sound(x.s)
    ensures Kept(x, HandlePatchCreated(x, e, id, git, now), e)
  {
    if e.artifactPaths != [] && git.writeAllowed {
      var applied := git.apply(e.artifactPaths[0]);
      PublishKept(Await(x), PatchNote(e, id, now, applied), e);
    }
  }

  // ---- announcements ----

  /** The completion events of the task among those published. */
  function Announcements(events: seq<Event>, id: string): nat
  {
    if events == [] then 0
    else
      var e := events[|events| - 1];
      Announcements(events[..|events| - 1], id) + if e.eventType.TaskCompleted? && e.taskId == Some(id) then 1 else 0
  }

  /** The task's announcements have grown by as much as its history counts. */
  predicate InStep(s: Managed, v: Managed, id: string)
  {
    Announcements(v.published, id) + HistoryOf(s, id).completions
    == Announcements(s.published, id) + HistoryOf(v, id).completions
  }

  lemma OneMoreAnnouncement(events: seq<Event>, e: Event, id: string)
    ensures Announcements(events + [e], id)
         == Announcements(events, id) + if e.eventType.TaskCompleted? && e.taskId == Some(id) then 1 else 0
  {
    assert (events + [e])[..|events|] == events;
  }

  lemma PublishInStep(x: Exec, e: Event, id: string)
    requires !e.eventType.TaskCompleted?
    ensures InStep(x.s, Publish(x, e).s, id)
  {
    OneMoreAnnouncement(x.s.published, e, id);
  }

  lemma CompletionInStep(x: Exec, task: string, e: Event, id: string)
    requires e.eventType.TaskCompleted? && e.taskId == Some(task)
    ensures InStep(x.s, PublishCompletion(x, task, e).s, id)
  {
    OneMoreAnnouncement(x.s.published, e, id);
  }

  lemma FailureInStep(x: Exec, t: Task, task: string, message: string, now: int, id: string)
    requires task in x.s.tasks
    ensures InStep(x.s, HandleFailure(x, t, task, message, now).s, id)
  {
    var y := Increment(x, task, now);
    PublishInStep(y, DebuggerCall(t, task, y.s.tasks[task].failCount, message, now), id);
  }

  lemma AgentFailureInStep(x: Exec, e: Event, task: string, fallback: string, now: int, id: string)
    ensures InStep(x.s, HandleAgentFailure(x, e, task, fallback, now).s, id)
  {
    var y := Await(x);
    if task in y.s.tasks {
      FailureInStep(y, y.s.tasks[task], task, Meta(e, "error_message", fallback), now, id);
    }
  }

  lemma UpdateInStep(x: Exec, task: string, target: TaskState, agent: Option<string>, now: int, id: string)
    ensures InStep(x.s, UpdateState(x, task, target, agent, now).s, id)
  {
  }

  lemma InStepOn(s: Managed, u: Managed, v: Managed, id: string)
    requires InStep(s, u, id) && InStep(u, v, id)
    ensures InStep(s, v, id)
  {
  }

  lemma AgentCompletedInStep(x: Exec, e: Event, task: string, git: Git, now: int, id: string)
    ensures InStep(x.s, HandleAgentCompleted(x, e, task, git, now).s, id)
  {
    var y := Await(x);
    if y.live && task in y.s.tasks {
      var (z, failed) := if git.writeAllowed then ApplyPatches(y, e.sessionId, PatchPaths(e.artifactPaths), git)
                         else (y, false);
      assert InStep(x.s, z.s, id);
      if z.live && failed {
        FailureInStep(z, y.s.tasks[task], task, "patch failed", now, id);
        InStepOn(x.s, z.s, HandleFailure(z, y.s.tasks[task], task, "patch failed", now).s, id);
      } else if z.live {
        var u := UpdateState(z, task, Testing, None, now);
        var note := Note(TaskDispatched, e.sessionId, task, None, "normal", now, map["agent_type" := "test-runner"]);
        UpdateInStep(z, task, Testing, None, now, id);
        InStepOn(x.s, z.s, u.s, id);
        PublishInStep(u, note, id);
        InStepOn(x.s, u.s, Publish(u, note).s, id);
      }
    }
  }

  lemma GateApprovedInStep(x: Exec, e: Event, task: string, now: int, id: string)
    ensures InStep(x.s, HandleGateApproved(x, e, task, now).s, id)
  {
    var y := Await(x);
    var u := UpdateState(y, task, Complete, None, now);
    UpdateInStep(y, task, Complete, None, now, id);
    CompletionInStep(u, task, CompletionNote(e, task, now), id);
    InStepOn(x.s, u.s, PublishCompletion(u, task, CompletionNote(e, task, now)).s, id);
  }

  lemma GateRejectedInStep(x: Exec, e: Event, task: string, now: int, id: string)
    ensures InStep(x.s, HandleGateRejected(x, e, task, now).s, id)
  {
    var y := Await(x);
    if y.live && task in y.s.tasks {
      var c := Increment(y, task, now);
      assert InStep(x.s, c.s, id);
      if c.live {
        var u := UpdateState(c, task, InProgress, None, now);
        var note := RetryNote(e, task, y.s.tasks[task], c.s.tasks[task].failCount, now);
        UpdateInStep(c, task, InProgress, None, now, id);
        InStepOn(x.s, c.s, u.s, id);
        PublishInStep(u, note, id);
        InStepOn(x.s, u.s, Publish(u, note).s, id);
      }
    }
  }

  lemma PatchCreatedInStep(x: Exec, e: Event, task: string, git: Git, now: int, id: string)
    ensures InStep(x.s, HandlePatchCreated(x, e, task, git, now).s, id)
  {
    if e.artifactPaths != [] && git.writeAllowed {
      PublishInStep(Await(x), PatchNote(e, task, now, git.apply(e.artifactPaths[0])), id);
    }
  }

  /** Between creations of a task, what its history counts is what has been published: no
      handler announces a completion by another way. */
  lemma HandleInStep(x: Exec, e: Event, git: Git, now: int, id: string)
    requires !Creates(e, id)
    ensures InStep(x.s, Handle(x, e, git, now).s, id)
  {
    if !e.eventType.TaskCreated? && e.taskId.GetOr("") != "" {
      var task := e.taskId.value;
      match e.eventType {
        case AgentCompleted => AgentCompletedInStep(x, e, task, git, now, id);
        case AgentError => AgentFailureInStep(x, e, task, "Agent error", now, id);
        case TaskFailed => AgentFailureInStep(x, e, task, "Task failed", now, id);
        case GateApproved => GateApprovedInStep(x, e, task, now, id);
        case GateRejected => GateRejectedInStep(x, e, task, now, id);
        case PatchCreated => PatchCreatedInStep(x, e, task, git, now, id);
        case _ =>
      }
    }
  }

  // ---- an approval cut short ----

  /** An event as it reaches the agent, with how far its handling gets. */
  datatype Delivery = Delivery(e: Event, fuel: nat, git: Git, now: int)

  function After(s: Managed, d: Delivery): Managed
  {
    Handle(Exec(s, d.fuel, true), d.e, d.git, d.now).s
  }

  function HandleAll(s: Managed, deliveries: seq<Delivery>): Managed
    decreases |deliveries|
  {
    if deliveries == [] then s
    else HandleAll(After(s, deliveries[0]), deliveries[1..])
  }

  predicate Creates(e: Event, id: string)
  {
    e.eventType.TaskCreated? && e.taskId.GetOr("") == id
  }

  /** COMPLETE, with that many announcements of it since the task was created. */
  predicate Finished(s: Managed, id: string, announced: nat)
  {
    id in s.tasks && s.tasks[id].state == Complete && HistoryOf(s, id).completions == announced
  }

  lemma UpdateFinished(x: Exec, task: string, target: TaskState, agent: Option<string>, now: int, id: string, n: nat)
    requires Finished(x.s, id, n)
    ensures Finished(UpdateState(x, task, target, agent, now).s, id, n)
  {
  }

  lemma FailureFinished(x: Exec, t: Task, task: string, message: string, now: int, id: string, n: nat)
    requires task in x.s.tasks && Finished(x.s, id, n)
    ensures Finished(HandleFailure(x, t, task, message, now).s, id, n)
  {
    assert Finished(Increment(x, task, now).s, id, n);
  }

  lemma AgentCompletedFinished(x: Exec, e: Event, task: string, git: Git, now: int, id: string, n: nat)
    requires Finished(x.s, id, n)
    ensures Finished(HandleAgentCompleted(x, e, task, git, now).s, id, n)
  {
    var y := Await(x);
    if y.live && task in y.s.tasks {
      var (z, failed) := if git.writeAllowed then ApplyPatches(y, e.sessionId, PatchPaths(e.artifactPaths), git)
                         else (y, false);
      assert Finished(z.s, id, n);
      FailureFinished(z, y.s.tasks[task], task, "patch failed", now, id, n);
      UpdateFinished(z, task, Testing, None, now, id, n);
    }
  }

  lemma GateApprovedFinished(x: Exec, e: Event, task: string, now: int, id: string, n: nat)
    requires Finished(x.s, id, n)
    ensures Finished(HandleGateApproved(x, e, task, now).s, id, n)
  {
    UpdateFinished(Await(x), task, Complete, None, now, id, n);
  }

  lemma GateRejectedFinished(x: Exec, e: Event, task: string, now: int, id: string, n: nat)
    requires Finished(x.s, id, n)
    ensures Finished(HandleGateRejected(x, e, task, now).s, id, n)
  {
    var y := Await(x);
    if y.live && task in y.s.tasks {
      var c := Increment(y, task, now);
      assert Finished(c.s, id, n);
      UpdateFinished(c, task, InProgress, None, now, id, n);
    }
  }

  lemma OtherFinished(x: Exec, e: Event, task: string, git: Git, now: int, id: string, n: nat)
    requires Finished(x.s, id, n)
    ensures Finished(HandleTaskDispatched(x, e, task, now).s, id, n)
    ensures Finished(HandlePatchCreated(x, e, task, git, now).s, id, n)
    ensures Finished(HandleAgentFailure(x, e, task, "Agent error", now).s, id, n)
    ensures Finished(HandleAgentFailure(x, e, task, "Task failed", now).s, id, n)
  {
    var y := Await(x);
    UpdateFinished(y, task, InProgress, Some(Meta(e, "agent_type", "unknown")), now, id, n);
    if y.live && task in y.s.tasks {
      FailureFinished(y, y.s.tasks[task], task, Meta(e, "error_message", "Agent error"), now, id, n);
      FailureFinished(y, y.s.tasks[task], task, Meta(e, "error_message", "Task failed"), now, id, n);
    }
  }

  /** No event but a new creation takes a finished task out of COMPLETE or announces it: in
      particular a redelivered approval does neither. (Failures says which events still
      count failures of it.) */
  lemma FinishedStays(x: Exec, e: Event, git: Git, now: int, id: string, announced: nat)
    requires Finished(x.s, id, announced) && !Creates(e, id)
    ensures Finished(Handle(x, e, git, now).s, id, announced)
  {
    if !e.eventType.TaskCreated? && e.taskId.GetOr("") != "" {
      var task := e.taskId.value;
      match e.eventType {
        case AgentCompleted => AgentCompletedFinished(x, e, task, git, now, id, announced);
        case GateApproved => GateApprovedFinished(x, e, task, now, id, announced);
        case GateRejected => GateRejectedFinished(x, e, task, now, id, announced);
        case _ => OtherFinished(x, e, task, git, now, id, announced);
      }
    }
  }

  lemma {:induction false} FinishedForGood(s: Managed, deliveries: seq<Delivery>, id: string, announced: nat)
    requires Finished(s, id, announced)
    requires forall i :: 0 <= i < |deliveries| ==> !Creates(deliveries[i].e, id)
    ensures Finished(HandleAll(s, deliveries), id, announced)
    decreases |deliveries|
  {
    if deliveries != [] {
      var d := deliveries[0];
      FinishedStays(Exec(s, d.fuel, true), d.e, d.git, d.now, id, announced);
      FinishedForGood(After(s, d), deliveries[1..], id, announced);
    }
  }

  /** An approval whose handling stops is redelivered, but the completion is lost exactly
      when it stops between the state change and the announcement: then the task is
      COMPLETE and, until it is created anew, no delivery announces it. */
  lemma {:induction false} AnnouncementLostExactly(s: Managed, id: string, d: Delivery, later: seq<Delivery>)
    requires Sound(s) && id in s.tasks && s.tasks[id].state == BlockedHitl && id != ""
    requires d.e.eventType == GateApproved && d.e.taskId == Some(id)
    requires forall i :: 0 <= i < |later| ==> !Creates(later[i].e, id)
    ensures d.fuel == 2 <==> Finished(After(s, d), id, 0)
    ensures d.fuel == 2 ==> Finished(HandleAll(After(s, d), later), id, 0)
    ensures d.fuel < 2 ==> After(s, d) == s
    ensures d.fuel > 2 ==> Finished(HandleAll(After(s, d), later), id, 1)
  {
    assert TaskSound(s.tasks[id], s.history[id]);
    if d.fuel == 2 {
      FinishedForGood(After(s, d), later, id, 0);
    } else if d.fuel > 2 {
      FinishedForGood(After(s, d), later, id, 1);
    }
  }

  // ---- the agent ----

  class ManagerAgent {
    var tasks: map<string, Task>
    var shas: map<string, string>
    var published: seq<Event>
    var fuel: nat
    const git: Git
    ghost var history: map<string, History>

    constructor (gateway: Git)
      ensures git == gateway && View(true) == Exec(Managed(map[], map[], [], map[]), fuel, true) && Sound(View(true).s)
    {
      git := gateway;
      tasks, shas, published, fuel, history := map[], map[], [], 0, map[];
    }

    /** The stores and the calls left, with whether the current handler is still running. */
    ghost function View(live: bool): Exec
      reads this
    {
      Exec(Managed(tasks, shas, published, history), fuel, live)
    }

    /** One awaited call: it completes, or it is where the handler stops. */
    method Call() returns (ok: bool)
      modifies this`fuel
      ensures View(ok) == Await(old(View(true)))
    {
      ok := fuel > 0;
      if ok {
        fuel := fuel - 1;
      }
    }

    method CreateTaskCall(t: Task) returns (ok: bool)
      modifies this
      ensures View(ok) == CreateTask(old(View(true)), t)
    {
      ok := Call();
      if ok {
        tasks := tasks[t.taskId := if t.taskId in tasks then Merged(tasks[t.taskId], t) else t];
        history := history[t.taskId := History([t.state], t.failCount, 0)];
      }
    }

    method UpdateStateCall(id: string, target: TaskState, agent: Option<string>, now: int) returns (ok: bool)
      modifies this
      ensures View(ok) == UpdateState(old(View(true)), id, target, agent, now)
    {
      ok := Call();
      if !ok {
        return;
      }
      if id !in tasks || !CanTransition(tasks[id].state, target) {
        return false;
      }
      ghost var before := View(true).s;
      var task := tasks[id];
      task := task.(state := target, updatedAt := now);
      if agent.Some? {
        task := task.(currentAgent := agent);
      }
      tasks := tasks[id := Merged(tasks[id], task)];
      history := history[id := HistoryOf(before, id).(path := HistoryOf(before, id).path + [target])];
      assert View(true).s == Transitioned(before, id, target, agent, now);
    }

    method IncrementFailCountCall(id: string, now: int) returns (ok: bool, failCount: nat)
      requires id in tasks
      modifies this
      ensures View(ok) == Increment(old(View(true)), id, now)
      ensures ok ==> id in tasks && failCount == tasks[id].failCount
    {
      failCount := 0;
      ok := Call();
      if ok {
        ghost var before := View(true).s;
        failCount := tasks[id].failCount + 1;
        tasks := tasks[id := tasks[id].(failCount := failCount, updatedAt := now)];
        history := history[id := HistoryOf(before, id).(increments := HistoryOf(before, id).increments + 1)];
      }
    }

    method PublishCall(e: Event) returns (ok: bool)
      modifies this
      ensures View(ok) == Publish(old(View(true)), e)
    {
      ok := Call();
      if ok {
        published := published + [e];
      }
    }

    method PublishCompletionCall(id: string, e: Event) returns (ok: bool)
      modifies this
      ensures View(ok) == PublishCompletion(old(View(true)), id, e)
    {
      ok := Call();
      if ok {
        ghost var h := HistoryOf(View(true).s, id);
        published := published + [e];
        history := history[id := h.(completions := h.completions + 1)];
      }
    }

    method RecordShaCall(session: string, sha: string) returns (ok: bool)
      modifies this
      ensures View(ok) == RecordSha(old(View(true)), session, sha)
    {
      ok := Call();
      if ok {
        shas := shas[session := sha];
      }
    }

    // ---- handlers ----

    method OnTaskDispatched(e: Event, id: string, now: int) returns (ok: bool)
      modifies this
      ensures View(ok) == HandleTaskDispatched(old(View(true)), e, id, now)
    {
      ok := Call();
      if ok && id in tasks {
        ok := UpdateStateCall(id, InProgress, Some(Meta(e, "agent_type", "unknown")), now);
      }
    }

    method OnFailure(t: Task, id: string, message: string, now: int) returns (ok: bool)
      requires id in tasks
      modifies this
      ensures View(ok) == HandleFailure(old(View(true)), t, id, message, now)
    {
      var failCount;
      ok, failCount := IncrementFailCountCall(id, now);
      if ok && failCount > RLM_FAIL_THRESHOLD {
        ok := PublishCall(DebuggerCall(t, id, failCount, message, now));
      }
    }

    /** The patch loop of `_handle_agent_completed`. */
    method ApplyAll(session: string, paths: seq<string>) returns (ok: bool, failed: bool)
      modifies this
      ensures (View(ok), failed) == ApplyPatches(old(View(true)), session, paths, git)
    {
      ok, failed := true, false;
      var rest := paths;
      ghost var start := View(true);
      while rest != []
        invariant ok && !failed
        invariant ApplyPatches(start, session, paths, git) == ApplyPatches(View(true), session, rest, git)
      {
        ok := Call();
        if !ok {
          return;
        }
        var sha := git.apply(rest[0]);
        if sha.None? {
          return true, true;
        }
        ok := RecordShaCall(session, sha.value);
        rest := rest[1..];
        if !ok {
          StoppedPatches(View(false), session, rest, git);
          return;
        }
      }
    }

    method OnAgentCompleted(e: Event, id: string, now: int) returns (ok: bool)
      modifies this
      ensures View(ok) == HandleAgentCompleted(old(View(true)), e, id, git, now)
    {
      ok := Call();
      if !ok || id !in tasks {
        return;
      }
      var task := tasks[id];
      if git.writeAllowed {
        var failed;
        ok, failed := ApplyAll(e.sessionId, PatchPaths(e.artifactPaths));
        if !ok {
          return;
        }
        if failed {
          ok := OnFailure(task, id, "patch failed", now);
          return;
        }
      }
      ok := UpdateStateCall(id, Testing, None, now);
      if ok {
        ok := PublishCall(Note(TaskDispatched, e.sessionId, id, None, "normal", now, map["agent_type" := "test-runner"]));
      }
    }

    method OnAgentFailure(e: Event, id: string, fallback: string, now: int) returns (ok: bool)
      modifies this
      ensures View(ok) == HandleAgentFailure(old(View(true)), e, id, fallback, now)
    {
      ok := Call();
      if ok && id in tasks {
        ok := OnFailure(tasks[id], id, Meta(e, "error_message", fallback), now);
      }
    }

    method OnGateApproved(e: Event, id: string, now: int) returns (ok: bool)
      modifies this
      ensures View(ok) == HandleGateApproved(old(View(true)), e, id, now)
    {
      ok := Call();
      if ok && id in tasks && tasks[id].state == BlockedHitl {
        ok := UpdateStateCall(id, Complete, None, now);
        if ok {
          ok := PublishCompletionCall(id, CompletionNote(e, id, now));
        }
      }
    }

    method OnGateRejected(e: Event, id: string, now: int) returns (ok: bool)
      modifies this
      ensures View(ok) == HandleGateRejected(old(View(true)), e, id, now)
    {
      ok := Call();
      if !ok || id !in tasks {
        return;
      }
      var task := tasks[id];
      var failCount;
      ok, failCount := IncrementFailCountCall(id, now);
      if ok {
        ok := UpdateStateCall(id, InProgress, None, now);
        if ok {
          ok := PublishCall(RetryNote(e, id, task, failCount, now));
        }
      }
    }

    method OnPatchCreated(e: Event, id: string, now: int) returns (ok: bool)
      modifies this
      ensures View(ok) == HandlePatchCreated(old(View(true)), e, id, git, now)
    {
      ok := true;
      if e.artifactPaths == [] || !git.writeAllowed {
        return;
      }
      ok := Call();
      if ok {
        var sha := git.apply(e.artifactPaths[0]);
        if sha.Some? {
          ok := PublishCall(Note(PatchApplied, e.sessionId, id, None, "normal", now, map[]).(gitSha := sha));
        } else {
          ok := PublishCall(Note(PatchRejected, e.sessionId, id, None, "normal", now, map[]));
        }
      }
    }

    /** `handle`: success exactly when no call raised; every exception asks for a retry. */
    method OnEvent(e: Event, now: int) returns (success: bool)
      requires Sound(View(true).s)
      modifies this
      ensures View(success) == Handle(old(View(true)), e, git, now)
      ensures Sound(View(success).s) && Allowed(old(View(true)).s, View(success).s, e)
    {
      HandleKept(View(true), e, git, now);
      if e.eventType.TaskCreated? {
        success := CreateTaskCall(Task(e.taskId.GetOr(""), e.sessionId, e.epicId.GetOr(""), Pending, now, now, 0, None,
                                       e.gitSha, []));
        return;
      }
      if e.taskId.GetOr("") == "" {
        return true;
      }
      success := Route(e, e.taskId.value, now);
    }

    method Route(e: Event, id: string, now: int) returns (ok: bool)
      requires !e.eventType.TaskCreated? && e.taskId == Some(id) && id != ""
      modifies this
      ensures View(ok) == Handle(old(View(true)), e, git, now)
    {
      match e.eventType {
        case TaskDispatched => ok := OnTaskDispatched(e, id, now);
        case AgentCompleted => ok := OnAgentCompleted(e, id, now);
        case AgentError => ok := OnAgentFailure(e, id, "Agent error", now);
        case TaskFailed => ok := OnAgentFailure(e, id, "Task failed", now);
        case GateApproved => ok := OnGateApproved(e, id, now);
        case GateRejected => ok := OnGateRejected(e, id, now);
        case PatchCreated => ok := OnPatchCreated(e, id, now);
        case _ => ok := true;
      }
    }
  }

  lemma StoppedPatches(x: Exec, session: string, paths: seq<string>, git: Git)
    requires !x.live
    ensures ApplyPatches(x, session, paths, git) == (x, false)
  {
  }
}
