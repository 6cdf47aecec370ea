/** What each event does to its task when its handling completes, told without the handlers:
    from which states it moves the task and where, which fields change, and what is published
    (src/orchestrator/manager_agent.py:77-408). */
module Moves {
  import opened Wrappers
  import opened Text
  import opened Events
  import opened StateMachine
  import opened Tasks
  import opened Manager
  import opened Failures

  function Ran(s: Managed, d: Delivery): Exec
  {
    Handle(Exec(s, d.fuel, true), d.e, d.git, d.now)
  }

  /** The delivery is about a task that exists. */
  predicate About(s: Managed, d: Delivery, id: string)
  {
    d.e.taskId == Some(id) && id != "" && id in s.tasks
  }

  /** Of all tasks only this one is different, and it is t. */
  predicate Becomes(s: Managed, v: Managed, id: string, t: Task)
  {
    v.tasks == s.tasks[id := t]
  }

  /** Exactly one event more, with this content. */
  predicate Tells(s: Managed, v: Managed, t: EventType, sessionId: string, epicId: Option<string>, id: string,
                  mode: string, now: int, metadata: map<string, string>)
  {
    v.published == s.published + [Event(t, sessionId, now, None, epicId, Some(id), None, [], mode, None, None, metadata)]
  }

  predicate Unchanged(s: Managed, v: Managed)
  {
    v.tasks == s.tasks && v.published == s.published
  }

  /** TASK_CREATED: the task is PENDING, with the event's session, epic and SHA and no failure;
      over an older task the agent and the paths stay, and its SHA if the event has none. */
  lemma CreatedExactly(s: Managed, d: Delivery)
    requires d.e.eventType.TaskCreated? && d.fuel >= 1
    ensures var v, id := Ran(s, d).s, d.e.taskId.GetOr("");
      && Ran(s, d).live && v.published == s.published && v.shas == s.shas
      && if id !in s.tasks
         then Becomes(s, v, id, Task(id, d.e.sessionId, d.e.epicId.GetOr(""), Pending, d.now, d.now, 0, None, d.e.gitSha, []))
         else var t := s.tasks[id];
              Becomes(s, v, id, Task(id, d.e.sessionId, d.e.epicId.GetOr(""), Pending, d.now, d.now, 0, t.currentAgent,
                                     if d.e.gitSha.GetOr("") == "" then t.gitSha else d.e.gitSha, t.artifactPaths))
  {
  }

  /** TASK_DISPATCHED: from PENDING, TESTING, REVIEW and BLOCKED_HITL the task goes to
      IN_PROGRESS with the agent that the event names; otherwise the handler raises. */
  lemma DispatchedExactly(s: Managed, d: Delivery, id: string)
    requires About(s, d, id) && d.e.eventType.TaskDispatched? && d.fuel >= 2
    ensures var v, t := Ran(s, d).s, s.tasks[id];
      var named := if "agent_type" in d.e.metadata then d.e.metadata["agent_type"] else "unknown";
      && v.published == s.published && v.shas == s.shas
      && (Ran(s, d).live <==> t.state in {TaskState.Pending, Testing, Review, BlockedHitl})
      && Becomes(s, v, id, if !Ran(s, d).live then t else
                           t.(state := InProgress, updatedAt := d.now,
                              currentAgent := if named == "" then t.currentAgent else Some(named)))
  {
  }

  /** AGENT_COMPLETED: when no patch fails, an IN_PROGRESS task goes to TESTING and its test
      run is dispatched; from any other state the handler raises and only SHAs are recorded. */
  lemma AgentCompletedExactly(s: Managed, d: Delivery, id: string)
    requires About(s, d, id) && d.e.eventType.AgentCompleted?
    requires d.git.writeAllowed ==> Applied(PatchPaths(d.e.artifactPaths), d.git) == |PatchPaths(d.e.artifactPaths)|
    requires d.fuel >= 3 + if d.git.writeAllowed then 2 * |PatchPaths(d.e.artifactPaths)| else 0
    ensures var v, t := Ran(s, d).s, s.tasks[id];
      && (Ran(s, d).live <==> t.state == InProgress)
      && if t.state == InProgress
         then && Becomes(s, v, id, t.(state := Testing, updatedAt := d.now))
              && Tells(s, v, TaskDispatched, d.e.sessionId, None, id, "normal", d.now, map["agent_type" := "test-runner"])
         else Unchanged(s, v)
  {
    var y, paths := Await(Exec(s, d.fuel, true)), PatchPaths(d.e.artifactPaths);
    LoopLength(y, d.e.sessionId, paths, d.git);
    var z := if d.git.writeAllowed then ApplyPatches(y, d.e.sessionId, paths, d.git).0 else y;
    TestingStarts(s, z, d, id);
  }

  lemma TestingStarts(s: Managed, z: Exec, d: Delivery, id: string)
    requires z.live && z.fuel >= 2 && z.s.tasks == s.tasks && z.s.published == s.published && id in s.tasks
    ensures var u, t := UpdateState(z, id, Testing, None, d.now), s.tasks[id];
      && (u.live <==> t.state == InProgress) && (u.live ==> u.fuel >= 1) && u.s.published == s.published
      && u.s.tasks == if u.live then s.tasks[id := t.(state := Testing, updatedAt := d.now)] else s.tasks
  {
  }

  /** The fail count goes up by one, and past four failures the debugger is called. */
  predicate Fails(s: Managed, v: Managed, id: string, message: string, now: int)
    requires id in s.tasks
  {
    var t := s.tasks[id];
    && Becomes(s, v, id, t.(failCount := t.failCount + 1, updatedAt := now))
    && if t.failCount + 1 <= 4 then v.published == s.published
       else Tells(s, v, AgentStarted, t.sessionId, Some(t.epicId), id, "rlm", now,
                  map["agent_type" := "debugger", "fail_count" := Decimal(t.failCount + 1), "error_message" := message])
  }

  /** AGENT_ERROR and TASK_FAILED, in any state. */
  lemma FailedExactly(s: Managed, d: Delivery, id: string)
    requires About(s, d, id) && (d.e.eventType.AgentError? || d.e.eventType.TaskFailed?) && d.fuel >= 3
    ensures var missing := if d.e.eventType.AgentError? then "Agent error" else "Task failed";
      && Ran(s, d).live && Ran(s, d).s.shas == s.shas
      && Fails(s, Ran(s, d).s, id, if "error_message" in d.e.metadata then d.e.metadata["error_message"] else missing, d.now)
  {
    var y := Await(Exec(s, d.fuel, true));
    FailureEffect(y, id, MessageOf(d.e), d.now, s.tasks[id]);
  }

  /** AGENT_COMPLETED with a patch that does not apply counts as a failure, in any state. */
  lemma PatchFailedExactly(s: Managed, d: Delivery, id: string)
    requires About(s, d, id) && d.e.eventType.AgentCompleted? && d.git.writeAllowed
    requires Applied(PatchPaths(d.e.artifactPaths), d.git) < |PatchPaths(d.e.artifactPaths)|
    requires d.fuel >= 3 + LoopCost(PatchPaths(d.e.artifactPaths), d.git)
    ensures Ran(s, d).live && Fails(s, Ran(s, d).s, id, "patch failed", d.now)
  {
    var y, paths := Await(Exec(s, d.fuel, true)), PatchPaths(d.e.artifactPaths);
    LoopLength(y, d.e.sessionId, paths, d.git);
    FailureEffect(ApplyPatches(y, d.e.sessionId, paths, d.git).0, id, "patch failed", d.now, s.tasks[id]);
  }

  /** GATE_APPROVED: a BLOCKED_HITL task is COMPLETE and its completion announced; any other
      task stays as it is, without an exception. */
  lemma ApprovedExactly(s: Managed, d: Delivery, id: string)
    requires About(s, d, id) && d.e.eventType.GateApproved? && d.fuel >= 3
    ensures var v, t := Ran(s, d).s, s.tasks[id];
      && Ran(s, d).live && v.shas == s.shas
      && if t.state == BlockedHitl
         then && Becomes(s, v, id, t.(state := Complete, updatedAt := d.now))
              && Tells(s, v, TaskCompleted, d.e.sessionId, None, id, "normal", d.now, map[])
         else Unchanged(s, v)
  {
  }

  /** GATE_REJECTED: the failure is counted in any state; where the task can go back to
      IN_PROGRESS it does, and its agent is asked again with the feedback. */
  lemma RejectedExactly(s: Managed, d: Delivery, id: string)
    requires About(s, d, id) && d.e.eventType.GateRejected? && d.fuel >= 4
    ensures var v, t := Ran(s, d).s, s.tasks[id]; var counted := t.(failCount := t.failCount + 1, updatedAt := d.now);
      var agent := if t.currentAgent.GetOr("") == "" then "coding-agent" else t.currentAgent.value;
      var feedback := if "feedback" in d.e.metadata then d.e.metadata["feedback"] else "Gate rejected";
      && v.shas == s.shas && (Ran(s, d).live <==> t.state in {TaskState.Pending, Testing, Review, BlockedHitl})
      && if Ran(s, d).live
         then && Becomes(s, v, id, counted.(state := InProgress))
              && Tells(s, v, AgentStarted, d.e.sessionId, Some(t.epicId), id,
                       if t.failCount + 1 > 4 then "rlm" else "normal", d.now,
                       map["agent_type" := agent, "retry" := "true", "fail_count" := Decimal(t.failCount + 1),
                           "feedback" := feedback])
         else Becomes(s, v, id, counted) && v.published == s.published
  {
    var c := Increment(Await(Exec(s, d.fuel, true)), id, d.now);
    GoesBack(s, c, d, id);
  }

  lemma GoesBack(s: Managed, c: Exec, d: Delivery, id: string)
    requires id in s.tasks && c.live && c.fuel >= 2 && c.s.published == s.published
    requires c.s.tasks == s.tasks[id := s.tasks[id].(failCount := s.tasks[id].failCount + 1, updatedAt := d.now)]
    ensures var u, counted := UpdateState(c, id, InProgress, None, d.now), c.s.tasks[id];
      && (u.live <==> s.tasks[id].state in {TaskState.Pending, Testing, Review, BlockedHitl})
      && (u.live ==> u.fuel >= 1) && u.s.published == s.published && u.s.shas == c.s.shas
      && u.s.tasks == s.tasks[id := if u.live then counted.(state := InProgress) else counted]
  {
  }

  /** PATCH_CREATED: no task changes; the first patch, applied or not, is reported. */
  lemma PatchCreatedExactly(s: Managed, d: Delivery, id: string)
    requires d.e.taskId == Some(id) && id != "" && d.e.eventType.PatchCreated? && d.fuel >= 2
    ensures var v := Ran(s, d).s; var sha := if d.e.artifactPaths == [] then None else d.git.apply(d.e.artifactPaths[0]);
      && Ran(s, d).live && v.tasks == s.tasks && v.shas == s.shas
      && v.published == s.published +
         if d.e.artifactPaths == [] || !d.git.writeAllowed then []
         else [Event(if sha.Some? then PatchApplied else PatchRejected, d.e.sessionId, d.now, None, None, Some(id), sha, [],
                     "normal", None, None, map[])]
  {
  }

  /** Every other event, and any but a creation without a task or for an unknown one (where
      PATCH_CREATED does not look), changes nothing and succeeds. */
  lemma NothingElseMoves(s: Managed, d: Delivery)
    requires d.fuel >= 1 && !d.e.eventType.TaskCreated?
    requires || d.e.taskId.GetOr("") == "" || d.e.eventType !in HANDLED_TYPES
             || (d.e.taskId.value !in s.tasks && !d.e.eventType.PatchCreated?)
    ensures Ran(s, d).live && Ran(s, d).s == s
  {
  }

  // ---- the patches among the artifacts ----

  /** A patch is a path that ends so. */
  lemma EndsExactly(p: string)
    ensures EndsWithPatch(p) <==> exists stem :: p == stem + ".patch"
  {
    if EndsWithPatch(p) {
      assert p == p[..|p| - 6] + ".patch";
    }
  }

  /** The patches are those paths, in their order: one by one, and list after list. */
  lemma {:induction false} PatchesInOrder(paths: seq<string>, more: seq<string>)
    ensures PatchPaths(paths + more) == PatchPaths(paths) + PatchPaths(more)
    ensures forall p :: PatchPaths([p]) == if (exists stem :: p == stem + ".patch") then [p] else []
    decreases |paths|
  {
    forall p ensures PatchPaths([p]) == if (exists stem :: p == stem + ".patch") then [p] else [] {
      EndsExactly(p);
      assert [p][1..] == [];
    }
    if paths == [] {
      assert paths + more == more;
    } else {
      assert (paths + more)[1..] == paths[1..] + more;
      PatchesInOrder(paths[1..], more);
    }
  }
}
