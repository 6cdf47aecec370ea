/** What the failures that reach the Manager Agent do: how far its patch loop gets, which
    events count a failure, what redelivered rejections add up to, and what may still happen
    to a task that is COMPLETE (src/orchestrator/manager_agent.py:165-362). */
module Failures {
  import opened Wrappers
  import opened Events
  import opened StateMachine
  import opened Tasks
  import opened Manager

  // ---- the patch loop ----

  /** How many patches apply before the first that does not. */
  function Applied(paths: seq<string>, git: Git): (n: nat)
    ensures n <= |paths|
    ensures forall i :: 0 <= i < n ==> git.apply(paths[i]).Some?
    ensures n < |paths| ==> git.apply(paths[n]).None?
  {
    if paths == [] || git.apply(paths[0]).None? then 0 else 1 + Applied(paths[1..], git)
  }

  /** The calls the loop makes: two for a patch that applies, one for the one that fails. */
  function LoopCost(paths: seq<string>, git: Git): nat
  {
    2 * Applied(paths, git) + if Applied(paths, git) < |paths| then 1 else 0
  }

  /** The patches whose SHA is recorded when so many calls complete. */
  function Recorded(paths: seq<string>, git: Git, fuel: nat): (k: nat)
    ensures k <= |paths| && k <= Applied(paths, git)
  {
    if fuel / 2 < Applied(paths, git) then fuel / 2 else Applied(paths, git)
  }

  /** The loop runs to its end exactly when its calls complete, fails exactly when a patch does
      not apply, and leaves the SHA of the last patch it recorded. */
  lemma PatchesApplied(x: Exec, session: string, paths: seq<string>, git: Git)
    requires x.live
    ensures var (z, failed) := ApplyPatches(x, session, paths, git); var k := Recorded(paths, git, x.fuel);
      && (z.live <==> x.fuel >= LoopCost(paths, git))
      && (failed <==> z.live && Applied(paths, git) < |paths|)
      && (z.live ==> z.fuel == x.fuel - LoopCost(paths, git))
      && z.s.shas == if k == 0 then x.s.shas else x.s.shas[session := git.apply(paths[k - 1]).value]
  {
    LoopLength(x, session, paths, git);
    ShasRecorded(x, session, paths, git);
  }

  lemma {:induction false} LoopLength(x: Exec, session: string, paths: seq<string>, git: Git)
    requires x.live
    ensures var (z, failed) := ApplyPatches(x, session, paths, git);
      && (z.live <==> x.fuel >= LoopCost(paths, git))
      && (failed <==> z.live && Applied(paths, git) < |paths|)
      && (z.live ==> z.fuel == x.fuel - LoopCost(paths, git))
    decreases |paths|
  {
    if paths != [] && x.fuel > 0 && git.apply(paths[0]).Some? {
      var y := RecordSha(Await(x), session, git.apply(paths[0]).value);
      if y.live {
        LoopLength(y, session, paths[1..], git);
      } else {
        StoppedPatches(y, session, paths[1..], git);
      }
    }
  }

  lemma {:induction false} ShasRecorded(x: Exec, session: string, paths: seq<string>, git: Git)
    requires x.live
    ensures var k := Recorded(paths, git, x.fuel);
      ApplyPatches(x, session, paths, git).0.s.shas
      == if k == 0 then x.s.shas else x.s.shas[session := git.apply(paths[k - 1]).value]
    decreases |paths|
  {
    if paths != [] && x.fuel > 0 && git.apply(paths[0]).Some? {
      var y := RecordSha(Await(x), session, git.apply(paths[0]).value);
      if y.live {
        ShasRecorded(y, session, paths[1..], git);
        OnePatch(x.s.shas, session, paths, git, x.fuel);
      } else {
        StoppedPatches(y, session, paths[1..], git);
      }
    }
  }

  /** The SHAs after the first patch and then the others. */
  lemma OnePatch(shas: map<string, string>, session: string, paths: seq<string>, git: Git, fuel: nat)
    requires paths != [] && git.apply(paths[0]).Some? && fuel >= 2
    ensures Recorded(paths, git, fuel) == 1 + Recorded(paths[1..], git, fuel - 2)
    ensures var k, j := Recorded(paths, git, fuel), Recorded(paths[1..], git, fuel - 2);
      var first := shas[session := git.apply(paths[0]).value];
      (if j == 0 then first else first[session := git.apply(paths[1..][j - 1]).value])
      == shas[session := git.apply(paths[k - 1]).value]
  {
    var j := Recorded(paths[1..], git, fuel - 2);
    assert (fuel - 2) / 2 == fuel / 2 - 1;
    assert j > 0 ==> paths[1..][j - 1] == paths[j];
  }

  // ---- which deliveries count a failure ----

  /** The calls after which an event's handling has counted a failure of its task, if it
      counts one at all. */
  function CountCost(e: Event, git: Git): Option<nat>
  {
    match e.eventType
    case AgentError => Some(2)
    case TaskFailed => Some(2)
    case GateRejected => Some(2)
    case AgentCompleted =>
      var paths := PatchPaths(e.artifactPaths);
      if git.writeAllowed && Applied(paths, git) < |paths| then Some(2 + LoopCost(paths, git)) else None
    case _ => None
  }

  predicate Counted(d: Delivery, id: string)
  {
    d.e.taskId == Some(id) && id != "" && CountCost(d.e, d.git).Some? && d.fuel >= CountCost(d.e, d.git).value
  }

  /** What handling leaves of one task. */
  predicate Untouched(s: Managed, v: Managed, id: string)
  {
    (id in s.tasks <==> id in v.tasks) && (id in s.tasks ==> v.tasks[id] == s.tasks[id])
  }

  lemma UpdateUntouched(x: Exec, task: string, target: TaskState, agent: Option<string>, now: int, id: string)
    requires task != id
    ensures Untouched(x.s, UpdateState(x, task, target, agent, now).s, id)
  {
  }

  lemma FailureUntouched(x: Exec, t: Task, task: string, message: string, now: int, id: string)
    requires task != id && task in x.s.tasks
    ensures Untouched(x.s, HandleFailure(x, t, task, message, now).s, id)
  {
    assert Untouched(x.s, Increment(x, task, now).s, id);
  }

  lemma AgentCompletedUntouched(x: Exec, e: Event, task: string, git: Git, now: int, id: string)
    requires task != id
    ensures Untouched(x.s, HandleAgentCompleted(x, e, task, git, now).s, id)
  {
    var y := Await(x);
    if y.live && task in y.s.tasks {
      var (z, failed) := if git.writeAllowed then ApplyPatches(y, e.sessionId, PatchPaths(e.artifactPaths), git)
                         else (y, false);
      FailureUntouched(z, y.s.tasks[task], task, "patch failed", now, id);
      UpdateUntouched(z, task, Testing, None, now, id);
    }
  }

  lemma GateRejectedUntouched(x: Exec, e: Event, task: string, now: int, id: string)
    requires task != id
    ensures Untouched(x.s, HandleGateRejected(x, e, task, now).s, id)
  {
    var y := Await(x);
    if y.live && task in y.s.tasks {
      var c := Increment(y, task, now);
      assert Untouched(x.s, c.s, id);
      UpdateUntouched(c, task, InProgress, None, now, id);
    }
  }

  /** An event leaves every task but its own as it was. */
  lemma OtherTasksUntouched(s: Managed, d: Delivery, id: string)
    requires !Creates(d.e, id) && (d.e.taskId != Some(id) || id == "")
    ensures Untouched(s, After(s, d), id)
  {
    if !d.e.eventType.TaskCreated? && d.e.taskId.GetOr("") != "" {
      var task, x := d.e.taskId.value, Exec(s, d.fuel, true);
      match d.e.eventType {
        case AgentCompleted => AgentCompletedUntouched(x, d.e, task, d.git, d.now, id);
        case GateRejected => GateRejectedUntouched(x, d.e, task, d.now, id);
        case GateApproved => UpdateUntouched(Await(x), task, Complete, None, d.now, id);
        case TaskDispatched =>
          UpdateUntouched(Await(x), task, InProgress, Some(Meta(d.e, "agent_type", "unknown")), d.now, id);
        case AgentError =>
          if task in s.tasks {
            FailureUntouched(Await(x), s.tasks[task], task, Meta(d.e, "error_message", "Agent error"), d.now, id);
          }
        case TaskFailed =>
          if task in s.tasks {
            FailureUntouched(Await(x), s.tasks[task], task, Meta(d.e, "error_message", "Task failed"), d.now, id);
          }
        case _ =>
      }
    }
  }

  predicate CountsBy(s: Managed, v: Managed, id: string, n: nat)
  {
    id in s.tasks && id in v.tasks && v.tasks[id].failCount == s.tasks[id].failCount + n
  }

  lemma UpdateCounts(x: Exec, id: string, target: TaskState, agent: Option<string>, now: int)
    requires id in x.s.tasks
    ensures CountsBy(x.s, UpdateState(x, id, target, agent, now).s, id, 0)
  {
  }

  lemma FailureCounts(x: Exec, t: Task, id: string, message: string, now: int)
    requires id in x.s.tasks && x.live
    ensures CountsBy(x.s, HandleFailure(x, t, id, message, now).s, id, if x.fuel >= 1 then 1 else 0)
  {
  }

  lemma AgentCompletedCounts(s: Managed, d: Delivery, id: string)
    requires id in s.tasks && d.e.eventType.AgentCompleted? && d.e.taskId == Some(id) && id != ""
    ensures CountsBy(s, After(s, d), id, if Counted(d, id) then 1 else 0)
  {
    var y := Await(Exec(s, d.fuel, true));
    if y.live {
      if d.git.writeAllowed {
        LoopCounts(s, d, id, y);
      } else {
        UpdateCounts(y, id, Testing, None, d.now);
      }
    }
  }

  lemma LoopCounts(s: Managed, d: Delivery, id: string, y: Exec)
    requires id in s.tasks && d.e.eventType.AgentCompleted? && d.e.taskId == Some(id) && id != ""
    requires y == Await(Exec(s, d.fuel, true)) && y.live && d.git.writeAllowed
    ensures CountsBy(s, After(s, d), id, if Counted(d, id) then 1 else 0)
  {
    var paths := PatchPaths(d.e.artifactPaths);
    LoopLength(y, d.e.sessionId, paths, d.git);
    var (z, failed) := ApplyPatches(y, d.e.sessionId, paths, d.git);
    assert z.s.tasks == s.tasks;
    if z.live && failed {
      FailureCounts(z, s.tasks[id], id, "patch failed", d.now);
    } else if z.live {
      UpdateCounts(z, id, Testing, None, d.now);
    }
  }

  lemma GateRejectedCounts(s: Managed, d: Delivery, id: string)
    requires id in s.tasks && d.e.eventType.GateRejected? && d.e.taskId == Some(id) && id != ""
    ensures CountsBy(s, After(s, d), id, if d.fuel >= 2 then 1 else 0)
  {
    var y := Await(Exec(s, d.fuel, true));
    if y.live {
      var c := Increment(y, id, d.now);
      if c.live {
        UpdateCounts(c, id, InProgress, None, d.now);
      }
    }
  }

  /** A delivery raises the fail count of a task by one exactly when it is a failure event of
      the task and its handling gets as far as counting. */
  lemma FailCountMoves(s: Managed, d: Delivery, id: string)
    requires id in s.tasks && !Creates(d.e, id)
    ensures CountsBy(s, After(s, d), id, if Counted(d, id) then 1 else 0)
  {
    if d.e.taskId != Some(id) || id == "" {
      OtherTasksUntouched(s, d, id);
    } else {
      var x := Exec(s, d.fuel, true);
      match d.e.eventType {
        case AgentCompleted => AgentCompletedCounts(s, d, id);
        case GateRejected => GateRejectedCounts(s, d, id);
        case GateApproved => UpdateCounts(Await(x), id, Complete, None, d.now);
        case TaskDispatched =>
          UpdateCounts(Await(x), id, InProgress, Some(Meta(d.e, "agent_type", "unknown")), d.now);
        case AgentError =>
          if d.fuel > 0 { FailureCounts(Await(x), s.tasks[id], id, Meta(d.e, "error_message", "Agent error"), d.now); }
        case TaskFailed =>
          if d.fuel > 0 { FailureCounts(Await(x), s.tasks[id], id, Meta(d.e, "error_message", "Task failed"), d.now); }
        case _ =>
      }
    }
  }

  function CountedIn(deliveries: seq<Delivery>, id: string): nat
    decreases |deliveries|
  {
    if deliveries == [] then 0 else (if Counted(deliveries[0], id) then 1 else 0) + CountedIn(deliveries[1..], id)
  }

  /** Over any deliveries the fail count grows by the number of those that counted. */
  lemma {:induction false} FailuresAddUp(s: Managed, deliveries: seq<Delivery>, id: string)
    requires id in s.tasks && forall i :: 0 <= i < |deliveries| ==> !Creates(deliveries[i].e, id)
    ensures CountsBy(s, HandleAll(s, deliveries), id, CountedIn(deliveries, id))
    decreases |deliveries|
  {
    if deliveries != [] {
      FailCountMoves(s, deliveries[0], id);
      FailuresAddUp(After(s, deliveries[0]), deliveries[1..], id);
    }
  }

  // ---- COMPLETE tasks ----

  /** The debugger is called, after a failure that is counted past the threshold. */
  predicate CallsDebugger(s: Managed, d: Delivery, id: string)
    requires id in s.tasks
  {
    && Counted(d, id) && !d.e.eventType.GateRejected?
    && s.tasks[id].failCount + 1 > RLM_FAIL_THRESHOLD && d.fuel > CountCost(d.e, d.git).value
  }

  function MessageOf(e: Event): string
  {
    match e.eventType
    case AgentError => Meta(e, "error_message", "Agent error")
    case TaskFailed => Meta(e, "error_message", "Task failed")
    case _ => "patch failed"
  }

  function DebuggerNote(d: Delivery, t: Task, id: string): Event
  {
    DebuggerCall(t, id, t.failCount + 1, MessageOf(d.e), d.now)
  }

  /** The task once a failure has been counted, and the events once the debugger has been called. */
  predicate OnlyCounts(s: Managed, v: Managed, d: Delivery, id: string)
    requires id in s.tasks
  {
    var t := s.tasks[id];
    && v.tasks == (if Counted(d, id) then s.tasks[id := t.(failCount := t.failCount + 1, updatedAt := d.now)] else s.tasks)
    && v.published == s.published + if CallsDebugger(s, d, id) then [DebuggerNote(d, t, id)] else []
  }

  /** No task changes, and the first patch is reported as applied, with its SHA, or rejected. */
  predicate OnlyReports(s: Managed, v: Managed, d: Delivery, id: string)
  {
    var reports := d.e.artifactPaths != [] && d.git.writeAllowed && d.fuel >= 2;
    && v.tasks == s.tasks
    && v.published == s.published + if reports then [PatchNote(d.e, id, d.now, d.git.apply(d.e.artifactPaths[0]))] else []
  }

  lemma CompleteRefuses(x: Exec, id: string, target: TaskState, agent: Option<string>, now: int)
    requires id in x.s.tasks && x.s.tasks[id].state == Complete
    ensures UpdateState(x, id, target, agent, now).s == x.s && !UpdateState(x, id, target, agent, now).live
  {
  }

  lemma FailureEffect(x: Exec, id: string, message: string, now: int, t: Task)
    requires id in x.s.tasks && x.live && t.failCount == x.s.tasks[id].failCount
    ensures var z, u := HandleFailure(x, t, id, message, now), x.s.tasks[id];
      && z.s.tasks == (if x.fuel >= 1 then x.s.tasks[id := u.(failCount := u.failCount + 1, updatedAt := now)] else x.s.tasks)
      && z.s.published == if x.fuel >= 2 && u.failCount + 1 > RLM_FAIL_THRESHOLD
         then x.s.published + [DebuggerCall(t, id, u.failCount + 1, message, now)]
         else x.s.published
  {
  }

  lemma CompleteAgentCompleted(s: Managed, d: Delivery, id: string)
    requires id in s.tasks && s.tasks[id].state == Complete && d.e.taskId == Some(id) && id != ""
    requires d.e.eventType.AgentCompleted?
    ensures OnlyCounts(s, After(s, d), d, id)
  {
    var y := Await(Exec(s, d.fuel, true));
    if y.live {
      if d.git.writeAllowed {
        CompleteLoop(s, d, id, y);
      } else {
        CompleteRefuses(y, id, Testing, None, d.now);
      }
    }
  }

  lemma CompleteLoop(s: Managed, d: Delivery, id: string, y: Exec)
    requires id in s.tasks && s.tasks[id].state == Complete && d.e.taskId == Some(id) && id != ""
    requires d.e.eventType.AgentCompleted? && d.git.writeAllowed && y == Await(Exec(s, d.fuel, true)) && y.live
    ensures OnlyCounts(s, After(s, d), d, id)
  {
    var paths := PatchPaths(d.e.artifactPaths);
    LoopLength(y, d.e.sessionId, paths, d.git);
    var (z, failed) := ApplyPatches(y, d.e.sessionId, paths, d.git);
    assert z.s.tasks == s.tasks;
    if z.live && failed {
      FailureEffect(z, id, "patch failed", d.now, s.tasks[id]);
      FailedLoop(s, d, id, z);
    } else if z.live {
      CompleteRefuses(z, id, Testing, None, d.now);
    }
  }

  /** A failed loop has left exactly the calls that its patches did not take. */
  lemma FailedLoop(s: Managed, d: Delivery, id: string, z: Exec)
    requires id in s.tasks && d.e.taskId == Some(id) && id != "" && d.e.eventType.AgentCompleted? && d.git.writeAllowed
    requires Applied(PatchPaths(d.e.artifactPaths), d.git) < |PatchPaths(d.e.artifactPaths)|
    requires d.fuel >= 1 + LoopCost(PatchPaths(d.e.artifactPaths), d.git)
    requires z.fuel == d.fuel - 1 - LoopCost(PatchPaths(d.e.artifactPaths), d.git)
    ensures Counted(d, id) <==> z.fuel >= 1
    ensures CallsDebugger(s, d, id) <==> z.fuel >= 2 && s.tasks[id].failCount + 1 > RLM_FAIL_THRESHOLD
  {
  }

  lemma CompleteGateRejected(s: Managed, d: Delivery, id: string)
    requires id in s.tasks && s.tasks[id].state == Complete && d.e.taskId == Some(id) && id != ""
    requires d.e.eventType.GateRejected?
    ensures OnlyCounts(s, After(s, d), d, id)
  {
    var y := Await(Exec(s, d.fuel, true));
    if y.live {
      var c := Increment(y, id, d.now);
      if c.live {
        CompleteRefuses(c, id, InProgress, None, d.now);
      }
    }
  }

  lemma CompleteAgentFailure(s: Managed, d: Delivery, id: string)
    requires id in s.tasks && d.e.taskId == Some(id) && id != ""
    requires d.e.eventType.AgentError? || d.e.eventType.TaskFailed?
    ensures OnlyCounts(s, After(s, d), d, id)
  {
    var y := Await(Exec(s, d.fuel, true));
    if y.live {
      FailureEffect(y, id, MessageOf(d.e), d.now, s.tasks[id]);
    }
  }

  /** What still happens to a COMPLETE task: an error, a task failure, a rejection and an agent
      whose patch does not apply raise its fail count and its time, and all but the rejection
      then call the debugger past the threshold. Nothing else but a new creation changes any
      task or publishes anything, except that PATCH_CREATED reports on its patch as it does
      for any task. */
  lemma CompleteTaskChanges(s: Managed, d: Delivery, id: string)
    requires id in s.tasks && s.tasks[id].state == Complete && d.e.taskId == Some(id) && id != ""
    requires !Creates(d.e, id)
    ensures if d.e.eventType.PatchCreated? then OnlyReports(s, After(s, d), d, id) else OnlyCounts(s, After(s, d), d, id)
  {
    match d.e.eventType {
      case AgentCompleted => CompleteAgentCompleted(s, d, id);
      case GateRejected => CompleteGateRejected(s, d, id);
      case AgentError => CompleteAgentFailure(s, d, id);
      case TaskFailed => CompleteAgentFailure(s, d, id);
      case TaskDispatched =>
        CompleteRefuses(Await(Exec(s, d.fuel, true)), id, InProgress, Some(Meta(d.e, "agent_type", "unknown")), d.now);
      case _ =>
    }
  }

  // ---- rejections ----

  predicate Rejects(d: Delivery, id: string)
  {
    d.e.eventType.GateRejected? && d.e.taskId == Some(id) && id != ""
  }

  /** A rejection counts first and validates afterwards. With the calls completing, it counts
      without moving the task, and raises, exactly when the task cannot go to IN_PROGRESS. */
  lemma RejectionCountsWithoutMoving(s: Managed, d: Delivery, id: string)
    requires id in s.tasks && Rejects(d, id) && d.fuel >= 4
    ensures CountsBy(s, After(s, d), id, 1)
    ensures Handle(Exec(s, d.fuel, true), d.e, d.git, d.now).live <==> CanTransition(s.tasks[id].state, InProgress)
    ensures After(s, d).tasks[id].state == if CanTransition(s.tasks[id].state, InProgress) then InProgress else s.tasks[id].state
    ensures !CanTransition(s.tasks[id].state, InProgress) ==> After(s, d).published == s.published
    ensures !CanTransition(s.tasks[id].state, InProgress) <==> s.tasks[id].state in {InProgress, Complete, Failed}
  {
    var y := Await(Exec(s, d.fuel, true));
    var c := Increment(y, id, d.now);
    assert c.live && c.s.tasks[id].state == s.tasks[id].state;
    GateRejectedCounts(s, d, id);
  }

  /** Redelivered n times, such a rejection counts n times and moves nothing. */
  lemma {:induction false} RejectionsAddUp(s: Managed, deliveries: seq<Delivery>, id: string)
    requires id in s.tasks && !CanTransition(s.tasks[id].state, InProgress)
    requires forall i :: 0 <= i < |deliveries| ==> Rejects(deliveries[i], id) && deliveries[i].fuel >= 4
    ensures CountsBy(s, HandleAll(s, deliveries), id, |deliveries|)
    ensures HandleAll(s, deliveries).tasks[id].state == s.tasks[id].state
    ensures HandleAll(s, deliveries).published == s.published
    decreases |deliveries|
  {
    if deliveries != [] {
      RejectionCountsWithoutMoving(s, deliveries[0], id);
      RejectionsAddUp(After(s, deliveries[0]), deliveries[1..], id);
    }
  }

  // ---- legal transitions ----

  /** `update_state` goes through exactly for a known task and a transition in the table. Then
      the task has the new state and time, its agent only if one is given, and nothing else
      has changed; otherwise nothing has. */
  lemma UpdatesExactly(x: Exec, id: string, target: TaskState, agent: Option<string>, now: int)
    requires x.live && x.fuel > 0
    ensures var y := UpdateState(x, id, target, agent, now);
      && (y.live <==> id in x.s.tasks && CanTransition(x.s.tasks[id].state, target))
      && (!y.live ==> y.s == x.s)
      && (y.live ==>
            && y.s.tasks.Keys == x.s.tasks.Keys && y.s.published == x.s.published && y.s.shas == x.s.shas
            && (forall other :: other in x.s.tasks && other != id ==> y.s.tasks[other] == x.s.tasks[other])
            && y.s.tasks[id].state == target && y.s.tasks[id].updatedAt == now
            && y.s.tasks[id].failCount == x.s.tasks[id].failCount
            && y.s.tasks[id].currentAgent ==
               (if agent.GetOr("") == "" then x.s.tasks[id].currentAgent else agent))
  {
    var y := UpdateState(x, id, target, agent, now);
    if y.live {
      assert y.s == Transitioned(x.s, id, target, agent, now);
    }
  }

  /** A creation, delivered for the first time or again, starts the count of failures anew:
      after it and any further deliveries, however often the task failed before, the fail
      count is the number of those that counted since. */
  lemma FailuresSinceCreation(s: Managed, d: Delivery, deliveries: seq<Delivery>, id: string)
    requires Creates(d.e, id) && d.fuel > 0
    requires forall i :: 0 <= i < |deliveries| ==> !Creates(deliveries[i].e, id)
    ensures var v := HandleAll(s, [d] + deliveries);
      id in v.tasks && v.tasks[id].failCount == CountedIn(deliveries, id)
  {
    var v := After(s, d);
    assert id in v.tasks && v.tasks[id].failCount == 0;
    FailuresAddUp(v, deliveries, id);
    assert ([d] + deliveries)[1..] == deliveries;
  }
}
