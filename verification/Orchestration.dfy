/** Dispatcher, event stream, consumer group and manager put together: every interleaving of
    gate requests, decisions, expiry sweeps, deliveries, redeliveries, crashes and of other
    components that publish events or move tasks. The one thing assumed of those other
    components is that they neither publish an approval nor complete a task. */
module Orchestration {
  import opened Wrappers
  import opened Events
  import Protocol = ConsumerProtocol
  import opened Evidence
  import Gate = Dispatcher
  import opened StateMachine
  import opened Tasks
  import opened Manager
  import opened Failures

  datatype System = System(
    w: Protocol.World,
    m: Managed,
    d: Gate.Gates,
    lib: Events.Libraries,
    hash: string -> string)

  datatype Step =
    | Group(a: Protocol.Action)                                          // any step of the consumer group
    | Handled(p: nat, fuel: nat, git: Git, now: int, dies: bool)         // the manager handles an event
    | Asked(r: Gate.GateRequest, b: Bundle, askMeta: map<string, string>)
    | Decided(decision: Gate.GateDecision, decideMeta: map<string, string>)
    | Swept(ids: seq<Uuid>, sweepTime: int)
    | Published(e: Event)                                                // another component
    | Moved(id: string, target: TaskState, agent: Option<string>, moveTime: int)

  function Stamps(events: seq<Event>, lib: Events.Libraries, hash: string -> string): (stamped: seq<Event>)
    ensures |stamped| == |events|
    ensures forall i :: 0 <= i < |events| ==> stamped[i] == Stamped(events[i], lib, hash)
  {
    seq(|events|, i requires 0 <= i < |events| => Stamped(events[i], lib, hash))
  }

  /** The new events of a component, appended to the stream with their keys. */
  function Appended(w: Protocol.World, events: seq<Event>, s: System): Protocol.World
  {
    w.(stream := w.stream + Stamps(events, s.lib, s.hash))
  }

  /** What a component has published beyond what it had before. */
  function News(before: seq<Event>, after: seq<Event>): seq<Event>
  {
    if |before| <= |after| then after[|before|..] else []
  }

  /** The handler's run on the entry that slot p is handling. */
  function HandlerRun(s: System, p: nat, fuel: nat, git: Git, now: int): Exec
    requires Protocol.Can(s.w, Protocol.Return(p, Protocol.Retry))
  {
    Handle(Exec(s.m, fuel, true), s.w.stream[s.w.slots[p].at.id], git, now)
  }

  predicate CanStep(s: System, step: Step)
  {
    match step
    case Group(a) => !a.Publish? && !a.Return? && Protocol.Can(s.w, a)
    case Handled(p, _, _, _, _) => Protocol.Can(s.w, Protocol.Return(p, Protocol.Retry))
    case Asked(r, b, _) =>
      r.requestId !in s.d.requests && r.status == Gate.Pending && r.bundleId == b.bundleId
      && ValidateEvidence(b).Ok?
    case Decided(decision, _) => Gate.IsPending(s.d, decision.requestId)
    case Swept(_, _) => true
    case Published(e) => e.eventType != GateApproved
    case Moved(id, target, _, _) =>
      target != Complete && id in s.m.tasks && CanTransition(s.m.tasks[id].state, target)
  }

  /** After a handler: success acknowledges in due course, an exception leaves the entry
      pending, a death frees the slot; the events it published stay published. */
  function AfterHandler(s: System, p: nat, x: Exec, dies: bool): Protocol.World
    requires Protocol.Can(s.w, Protocol.Return(p, Protocol.Retry))
  {
    var w := Appended(s.w, News(s.m.published, x.s.published), s);
    if x.live then Protocol.Do(w, Protocol.Return(p, Protocol.Success))
    else if dies then Protocol.Do(w, Protocol.Crash(p))
    else Protocol.Do(w, Protocol.Return(p, Protocol.Retry))
  }

  function DoStep(s: System, step: Step): System
    requires CanStep(s, step)
  {
    match step
    case Group(a) => s.(w := Protocol.Do(s.w, a))
    case Handled(p, fuel, git, now, dies) =>
      var x := HandlerRun(s, p, fuel, git, now);
      s.(w := AfterHandler(s, p, x, dies), m := x.s)
    case Asked(r, b, meta) => WithGates(s, Gate.Requesting(s.d, r, b, meta))
    case Decided(decision, meta) => WithGates(s, Gate.Deciding(s.d, decision, meta))
    case Swept(ids, now) => WithGates(s, Gate.Sweeping(s.d, ids, now))
    case Published(e) => s.(w := Appended(s.w, [e], s))
    case Moved(id, target, agent, now) => s.(m := Transitioned(s.m, id, target, agent, now))
  }

  /** The dispatcher's new events go to the stream. */
  function WithGates(s: System, d: Gate.Gates): System
  {
    s.(d := d, w := Appended(s.w, News(s.d.published, d.published), s))
  }

  // ---- the system's invariant ----

  /** A human has approved some request of the task. */
  ghost predicate Granted(d: Gate.Gates, taskId: string)
  {
    exists r :: r in d.requests && d.requests[r].taskId == taskId && d.requests[r].status == Gate.Approved
  }

  ghost predicate ApprovalsGranted(d: Gate.Gates, events: seq<Event>)
  {
    forall i :: 0 <= i < |events| && events[i].eventType == GateApproved && events[i].taskId.Some?
                ==> Granted(d, events[i].taskId.value)
  }

  ghost predicate CompletesGranted(d: Gate.Gates, m: Managed)
  {
    forall id :: id in m.tasks && m.tasks[id].state == Complete ==> Granted(d, id)
  }

  ghost predicate SystemSafe(s: System)
  {
    && Protocol.Safe(s.w) && Sound(s.m) && Gate.GatesValid(s.d)
    && ApprovalsGranted(s.d, s.w.stream) && CompletesGranted(s.d, s.m)
  }

  lemma GrantedStays(d: Gate.Gates, e: Gate.Gates)
    requires Gate.Settling(d, e)
    ensures forall t :: Granted(d, t) ==> Granted(e, t)
  {
    forall t | Granted(d, t) ensures Granted(e, t) {
      var r :| r in d.requests && d.requests[r].taskId == t && d.requests[r].status == Gate.Approved;
      assert r in e.requests && e.requests[r] == d.requests[r];
    }
  }

  lemma ApprovalsAppend(s: System, events: seq<Event>, d: Gate.Gates)
    requires ApprovalsGranted(d, s.w.stream) && ApprovalsGranted(d, events)
    ensures ApprovalsGranted(d, Appended(s.w, events, s).stream)
  {
    var stream := Appended(s.w, events, s).stream;
    forall i | 0 <= i < |stream| && stream[i].eventType == GateApproved && stream[i].taskId.Some?
      ensures Granted(d, stream[i].taskId.value)
    {
      if i >= |s.w.stream| {
        var k := i - |s.w.stream|;
        assert stream[i] == Stamped(events[k], s.lib, s.hash);
        assert events[k].eventType == GateApproved && events[k].taskId == stream[i].taskId;
      }
    }
  }

  // ---- every step is a run of the consumer protocol ----

  lemma {:induction false} AppendReaches(w: Protocol.World, events: seq<Event>)
    requires Protocol.WellFormed(w)
    ensures Protocol.Reaches(w, w.(stream := w.stream + events))
    decreases |events|
  {
    var v := w.(stream := w.stream + events);
    if events == [] {
      assert w.stream + events == w.stream;
      Protocol.ReachesItself(w);
    } else {
      var front := events[..|events| - 1];
      var u := w.(stream := w.stream + front);
      AppendReaches(w, front);
      assert v == Protocol.Do(u, Protocol.Publish(events[|events| - 1])) by {
        assert events == front + [events[|events| - 1]];
        assert w.stream + events == w.stream + front + [events[|events| - 1]];
      }
      Protocol.ReachesByStep(u, Protocol.Publish(events[|events| - 1]));
      Protocol.ReachesOn(w, u, v);
    }
  }

  lemma AppendedReaches(s: System, events: seq<Event>)
    requires Protocol.WellFormed(s.w)
    ensures Protocol.Reaches(s.w, Appended(s.w, events, s))
  {
    AppendReaches(s.w, Stamps(events, s.lib, s.hash));
  }

  lemma HandlerReaches(s: System, p: nat, x: Exec, dies: bool)
    requires Protocol.Can(s.w, Protocol.Return(p, Protocol.Retry))
    ensures Protocol.Reaches(s.w, AfterHandler(s, p, x, dies))
  {
    var w := Appended(s.w, News(s.m.published, x.s.published), s);
    AppendedReaches(s, News(s.m.published, x.s.published));
    var a := if x.live then Protocol.Return(p, Protocol.Success)
             else if dies then Protocol.Crash(p) else Protocol.Return(p, Protocol.Retry);
    Protocol.ReachesByStep(w, a);
    Protocol.ReachesOn(s.w, w, AfterHandler(s, p, x, dies));
  }

  lemma StepReaches(s: System, step: Step)
    requires Protocol.WellFormed(s.w) && CanStep(s, step)
    ensures Protocol.Reaches(s.w, DoStep(s, step).w)
  {
    match step {
      case Group(a) => Protocol.ReachesByStep(s.w, a);
      case Handled(p, fuel, git, now, dies) =>
        HandlerReaches(s, p, HandlerRun(s, p, fuel, git, now), dies);
      case Asked(r, b, meta) => AppendedReaches(s, News(s.d.published, Gate.Requesting(s.d, r, b, meta).published));
      case Decided(decision, meta) => AppendedReaches(s, News(s.d.published, Gate.Deciding(s.d, decision, meta).published));
      case Swept(ids, now) =>
        AppendedReaches(s, News(s.d.published, Gate.Sweeping(s.d, ids, now).published));
      case Published(e) => AppendedReaches(s, [e]);
      case Moved(_, _, _, _) => Protocol.ReachesItself(s.w);
    }
  }

  lemma ReachesSafe(w: Protocol.World, v: Protocol.World)
    requires Protocol.Safe(w) && Protocol.Reaches(w, v)
    ensures Protocol.Safe(v) && Protocol.Later(w, v)
  {
    var run :| Protocol.CanRun(w, run) && Protocol.Run(w, run) == v;
    Protocol.SafeRun(w, run);
  }

  /** What a handled event leaves: the manager's new state; its new events on the stream, with
      their keys; and its own entry on the way to its marker or its acknowledgement if no call
      raised, otherwise pending, neither succeeded nor refused by this. */
  lemma HandlingEndsExactly(s: System, p: nat, fuel: nat, git: Git, now: int, dies: bool)
    requires CanStep(s, Handled(p, fuel, git, now, dies)) && s.w.slots[p].at.id in s.w.pending
    ensures var id, x := s.w.slots[p].at.id, Handle(Exec(s.m, fuel, true), s.w.stream[s.w.slots[p].at.id], git, now);
      var t := DoStep(s, Handled(p, fuel, git, now, dies));
      && t.m == x.s && t.d == s.d && id in t.w.pending && t.w.acked == s.w.acked && t.w.refused == s.w.refused
      && t.w.stream == s.w.stream + Stamps(News(s.m.published, x.s.published), s.lib, s.hash)
      && t.w.succeeded == (if x.live then s.w.succeeded + {id} else s.w.succeeded)
      && (x.live ==> Protocol.At(t.w, p, if Protocol.KeyOf(s.w, id).Some? then Protocol.Marking(id) else Protocol.Acking(id, true)))
      && (!x.live && dies ==> t.w.slots[p] == Protocol.Down)
  {
  }

  // ---- every step keeps the system safe ----

  lemma {:induction false} SweepPublishesExpiries(d: Gate.Gates, ids: seq<Uuid>, now: int)
    ensures d.published <= Gate.Sweeping(d, ids, now).published
    ensures forall i :: |d.published| <= i < |Gate.Sweeping(d, ids, now).published|
                        ==> Gate.Sweeping(d, ids, now).published[i].eventType == GateExpired
    decreases |ids|
  {
    if ids != [] {
      SweepPublishesExpiries(d, ids[..|ids| - 1], now);
    }
  }

  /** The dispatcher moves on and publishes: granted tasks stay granted, and what it
      publishes as approved is granted. */
  lemma GatesKeep(s: System, d: Gate.Gates)
    requires SystemSafe(s) && Gate.GatesValid(d) && Gate.Settling(s.d, d)
    requires ApprovalsGranted(d, News(s.d.published, d.published))
    ensures SystemSafe(WithGates(s, d))
  {
    var events := News(s.d.published, d.published);
    GrantedStays(s.d, d);
    ApprovalsAppend(s, events, d);
    AppendedReaches(s, events);
    ReachesSafe(s.w, Appended(s.w, events, s));
  }

  lemma DecisionGrants(d: Gate.Gates, decision: Gate.GateDecision, meta: map<string, string>)
    requires Gate.IsPending(d, decision.requestId)
    ensures var e := Gate.Deciding(d, decision, meta); ApprovalsGranted(e, News(d.published, e.published))
  {
    var e := Gate.Deciding(d, decision, meta);
    var r := d.requests[decision.requestId];
    assert News(d.published, e.published) == [Gate.DecisionEvent(r, decision, meta)];
    if decision.approved {
      assert e.requests[decision.requestId].status == Gate.Approved;
      assert Granted(e, r.taskId);
    }
  }

  /** What the handler may do, given that the event it handles is granted if it approves. */
  lemma HandlerKeeps(s: System, x: Exec, e: Event)
    requires CompletesGranted(s.d, s.m) && Allowed(s.m, x.s, e)
    requires e.eventType == GateApproved && e.taskId.Some? ==> Granted(s.d, e.taskId.value)
    ensures CompletesGranted(s.d, x.s)
    ensures ApprovalsGranted(s.d, News(s.m.published, x.s.published))
  {
    var events := News(s.m.published, x.s.published);
    forall i | 0 <= i < |events| ensures events[i].eventType != GateApproved {
      assert events[i] == x.s.published[|s.m.published| + i];
    }
  }

  lemma HandledKeeps(s: System, p: nat, fuel: nat, git: Git, now: int, dies: bool)
    requires SystemSafe(s) && CanStep(s, Handled(p, fuel, git, now, dies))
    ensures SystemSafe(DoStep(s, Handled(p, fuel, git, now, dies)))
  {
    var e := s.w.stream[s.w.slots[p].at.id];
    var x := HandlerRun(s, p, fuel, git, now);
    HandleKept(Exec(s.m, fuel, true), e, git, now);
    HandlerKeeps(s, x, e);
    HandlerStream(s, p, x, dies);
    HandlerReaches(s, p, x, dies);
    ReachesSafe(s.w, AfterHandler(s, p, x, dies));
  }

  lemma HandlerStream(s: System, p: nat, x: Exec, dies: bool)
    requires Protocol.Can(s.w, Protocol.Return(p, Protocol.Retry)) && ApprovalsGranted(s.d, s.w.stream)
    requires ApprovalsGranted(s.d, News(s.m.published, x.s.published))
    ensures ApprovalsGranted(s.d, AfterHandler(s, p, x, dies).stream)
  {
    var w := Appended(s.w, News(s.m.published, x.s.published), s);
    ApprovalsAppend(s, News(s.m.published, x.s.published), s.d);
    assert AfterHandler(s, p, x, dies).stream == w.stream;
  }

  lemma MovedKeeps(s: System, id: string, target: TaskState, agent: Option<string>, now: int)
    requires SystemSafe(s) && CanStep(s, Moved(id, target, agent, now))
    ensures SystemSafe(DoStep(s, Moved(id, target, agent, now)))
  {
    var any := Note(TaskDispatched, "", "", None, "", 0, map[]);
    TransitionSound(s.m, id, target, agent, now, any);
  }

  lemma AskPublishesNoApproval(d: Gate.Gates, r: Gate.GateRequest, b: Bundle, meta: map<string, string>)
    ensures var e := Gate.Requesting(d, r, b, meta); ApprovalsGranted(e, News(d.published, e.published))
  {
    var event := Gate.GateEvent(GateRequested, r, r.requestedAt, meta);
    assert News(d.published, d.published + [event]) == [event];
  }

  lemma AskedKeeps(s: System, r: Gate.GateRequest, b: Bundle, meta: map<string, string>)
    requires SystemSafe(s) && CanStep(s, Asked(r, b, meta))
    ensures SystemSafe(WithGates(s, Gate.Requesting(s.d, r, b, meta)))
  {
    Gate.RequestingKeeps(s.d, r, b, meta);
    AskPublishesNoApproval(s.d, r, b, meta);
    GatesKeep(s, Gate.Requesting(s.d, r, b, meta));
  }

  lemma SweptKeeps(s: System, ids: seq<Uuid>, now: int)
    requires SystemSafe(s)
    ensures SystemSafe(WithGates(s, Gate.Sweeping(s.d, ids, now)))
  {
    var d := Gate.Sweeping(s.d, ids, now);
    Gate.SweepingKeeps(s.d, ids, now);
    SweepPublishesExpiries(s.d, ids, now);
    var events := News(s.d.published, d.published);
    forall i | 0 <= i < |events| ensures events[i].eventType != GateApproved {
      assert events[i] == d.published[|s.d.published| + i];
    }
    GatesKeep(s, d);
  }

  lemma GroupKeeps(s: System, a: Protocol.Action)
    requires SystemSafe(s) && CanStep(s, Group(a))
    ensures SystemSafe(DoStep(s, Group(a)))
  {
    Protocol.StepKeepsSafe(s.w, a);
  }

  lemma DecidedKeeps(s: System, decision: Gate.GateDecision, meta: map<string, string>)
    requires SystemSafe(s) && CanStep(s, Decided(decision, meta))
    ensures SystemSafe(DoStep(s, Decided(decision, meta)))
  {
    Gate.DecidingKeeps(s.d, decision, meta);
    DecisionGrants(s.d, decision, meta);
    GatesKeep(s, Gate.Deciding(s.d, decision, meta));
  }

  lemma PublishedKeeps(s: System, e: Event)
    requires SystemSafe(s) && CanStep(s, Published(e))
    ensures SystemSafe(DoStep(s, Published(e)))
  {
    ApprovalsAppend(s, [e], s.d);
    AppendedReaches(s, [e]);
    ReachesSafe(s.w, Appended(s.w, [e], s));
  }

  lemma StepKeepsSystem(s: System, step: Step)
    requires SystemSafe(s) && CanStep(s, step)
    ensures SystemSafe(DoStep(s, step))
  {
    match step {
      case Group(a) => GroupKeeps(s, a);
      case Handled(p, fuel, git, now, dies) => HandledKeeps(s, p, fuel, git, now, dies);
      case Asked(r, b, meta) => AskedKeeps(s, r, b, meta);
      case Decided(decision, meta) => DecidedKeeps(s, decision, meta);
      case Swept(ids, now) => SweptKeeps(s, ids, now);
      case Published(e) => PublishedKeeps(s, e);
      case Moved(id, target, agent, now) => MovedKeeps(s, id, target, agent, now);
    }
  }

  // ---- whole runs ----

  predicate CanRun(s: System, run: seq<Step>)
    decreases |run|, 0
  {
    run == [] || (CanRun(s, run[..|run| - 1]) && CanStep(Run(s, run[..|run| - 1]), run[|run| - 1]))
  }

  function Run(s: System, run: seq<Step>): System
    requires CanRun(s, run)
    decreases |run|, 1
  {
    if run == [] then s else DoStep(Run(s, run[..|run| - 1]), run[|run| - 1])
  }

  /** Nothing has happened yet: no gates, no tasks, and an unread stream without approvals. */
  ghost predicate Fresh(s: System)
  {
    && Protocol.Initial(s.w) && s.w.handles == HANDLED_TYPES
    && (forall i :: 0 <= i < |s.w.stream| ==> s.w.stream[i].eventType != GateApproved)
    && s.m == Managed(map[], map[], [], map[]) && s.d == Gate.NO_GATES
  }

  lemma FreshIsSafe(s: System)
    requires Fresh(s)
    ensures SystemSafe(s)
  {
    assert Gate.WithStatus(s.d, Gate.Pending) == {} && Gate.WithStatus(s.d, Gate.Approved) == {};
    assert Gate.WithStatus(s.d, Gate.Rejected) == {} && Gate.WithStatus(s.d, Gate.Expired) == {};
  }

  lemma {:induction false} RunKeepsSystem(s: System, run: seq<Step>)
    requires SystemSafe(s) && CanRun(s, run)
    ensures SystemSafe(Run(s, run)) && Protocol.Reaches(s.w, Run(s, run).w)
    decreases |run|
  {
    if run == [] {
      Protocol.ReachesItself(s.w);
    } else {
      var u := Run(s, run[..|run| - 1]);
      RunKeepsSystem(s, run[..|run| - 1]);
      StepKeepsSystem(u, run[|run| - 1]);
      StepReaches(u, run[|run| - 1]);
      Protocol.ReachesOn(s.w, u.w, Run(s, run).w);
    }
  }

  /** In every run, a task that is COMPLETE has an APPROVED gate request of its own, whose
      stored evidence bundle holds an item that the bundle's own gate asks for. */
  lemma CompleteMeansApproved(s: System, run: seq<Step>, t: System, taskId: string)
    requires Fresh(s) && CanRun(s, run) && t == Run(s, run)
    requires taskId in t.m.tasks && t.m.tasks[taskId].state == Complete
    ensures exists r ::
      && r in t.d.requests && t.d.requests[r].taskId == taskId && t.d.requests[r].status == Gate.Approved
      && t.d.requests[r].bundleId in t.d.bundles
      && Supports(t.d.bundles[t.d.requests[r].bundleId], t.d.bundles[t.d.requests[r].bundleId].gateType)
  {
    FreshIsSafe(s);
    RunKeepsSystem(s, run);
    assert Granted(t.d, taskId);
    var r :| r in t.d.requests && t.d.requests[r].taskId == taskId && t.d.requests[r].status == Gate.Approved;
    assert Gate.Evidenced(t.d, t.d.requests[r]);
    AcceptedIffSupported(t.d.bundles[t.d.requests[r].bundleId]);
  }

  /** In every run, each task has followed the transition table from PENDING since it was
      last created, its fail count is the number of increments since then, and its
      completion has been announced at most once, and only if it is COMPLETE now. */
  lemma TasksFollowTheTable(s: System, run: seq<Step>, t: System, taskId: string)
    requires Fresh(s) && CanRun(s, run) && t == Run(s, run) && taskId in t.m.tasks
    ensures taskId in t.m.history
    ensures var h := t.m.history[taskId];
      && IsPath(h.path) && h.path[0] == Pending && h.path[|h.path| - 1] == t.m.tasks[taskId].state
      && t.m.tasks[taskId].failCount == h.increments
      && h.completions <= 1 && (h.completions == 1 ==> t.m.tasks[taskId].state == Complete)
      && (t.m.tasks[taskId].state == Complete ==> |h.path| >= 4 && h.path[|h.path| - 2] == BlockedHitl)
  {
    FreshIsSafe(s);
    RunKeepsSystem(s, run);
    assert TaskSound(t.m.tasks[taskId], t.m.history[taskId]);
    if t.m.tasks[taskId].state == Complete {
      CompleteOnlyThroughTheGate(t.m.history[taskId].path);
    }
  }

  /** No step of the run handles an event that creates the task. */
  predicate NeverCreated(s: System, run: seq<Step>, taskId: string)
    requires CanRun(s, run)
    decreases |run|
  {
    run == [] ||
    (&& NeverCreated(s, run[..|run| - 1], taskId)
     && var u, step := Run(s, run[..|run| - 1]), run[|run| - 1];
        step.Handled? ==> !Creates(u.w.stream[u.w.slots[step.p].at.id], taskId))
  }

  lemma {:induction false} AnnouncementsInStep(s: System, run: seq<Step>, taskId: string)
    requires CanRun(s, run) && NeverCreated(s, run, taskId)
    ensures InStep(s.m, Run(s, run).m, taskId)
    decreases |run|
  {
    if run != [] {
      var u, step := Run(s, run[..|run| - 1]), run[|run| - 1];
      AnnouncementsInStep(s, run[..|run| - 1], taskId);
      if step.Handled? {
        HandleInStep(Exec(u.m, step.fuel, true), u.w.stream[u.w.slots[step.p].at.id], step.git, step.now, taskId);
      }
    }
  }

  /** Between creations of a task, in every run from a safe state in which it is not
      announced yet, its completion event is published at most once, and only if the task
      is COMPLETE in the end. */
  lemma AnnouncedAtMostOnce(s: System, run: seq<Step>, taskId: string)
    requires SystemSafe(s) && CanRun(s, run) && NeverCreated(s, run, taskId)
    requires taskId in s.m.tasks && s.m.history[taskId].completions == 0
    ensures Announcements(Run(s, run).m.published, taskId) <= Announcements(s.m.published, taskId) + 1
    ensures Announcements(Run(s, run).m.published, taskId) == Announcements(s.m.published, taskId) + 1 ==>
      taskId in Run(s, run).m.tasks && Run(s, run).m.tasks[taskId].state == Complete
  {
    RunKeepsSystem(s, run);
    AnnouncementsInStep(s, run, taskId);
    var t := Run(s, run);
    if taskId in t.m.tasks {
      assert TaskSound(t.m.tasks[taskId], t.m.history[taskId]);
    }
  }

  /** In every run, the group keeps the consumer protocol's promises: each delivered entry
      is pending or justly acknowledged, and events that share a key are handled
      successfully at most once per consumer slot and once per lost marker. */
  lemma GroupKeepsItsPromises(s: System, run: seq<Step>, t: System, key: Protocol.Key)
    requires Fresh(s) && CanRun(s, run) && t == Run(s, run) && key != ""
    ensures forall id :: 0 <= id < t.w.delivered ==> (id in t.w.pending) != (id in t.w.acked)
    ensures forall id :: id in t.w.acked ==> id < |t.w.stream| && Protocol.Justified(t.w, id)
    ensures t.w.wins[key] <= |s.w.slots| + t.w.lost[key]
  {
    FreshIsSafe(s);
    RunKeepsSystem(s, run);
    var steps :| Protocol.CanRun(s.w, steps) && Protocol.Run(s.w, steps) == t.w;
    Protocol.PendingOrJustlyAcknowledged(s.w, steps);
    Protocol.HandlingsBounded(s.w, steps, key);
  }

  // ---- how many failures a task has seen ----

  function DeliveryAt(s: System, step: Step): Delivery
    requires CanStep(s, step) && step.Handled?
  {
    Delivery(s.w.stream[s.w.slots[step.p].at.id], step.fuel, step.git, step.now)
  }

  /** The steps of the run that count a failure of the task. */
  function FailuresIn(s: System, run: seq<Step>, taskId: string): nat
    requires CanRun(s, run)
    decreases |run|
  {
    if run == [] then 0
    else
      var u, step := Run(s, run[..|run| - 1]), run[|run| - 1];
      FailuresIn(s, run[..|run| - 1], taskId)
      + if step.Handled? && Counted(DeliveryAt(u, step), taskId) then 1 else 0
  }

  /** Between creations of a task, in every run, its fail count grows by exactly the failure
      events of the task whose handling got as far as counting. */
  lemma {:induction false} FailuresInStep(s: System, run: seq<Step>, taskId: string)
    requires CanRun(s, run) && NeverCreated(s, run, taskId) && taskId in s.m.tasks
    ensures taskId in Run(s, run).m.tasks
    ensures Run(s, run).m.tasks[taskId].failCount == s.m.tasks[taskId].failCount + FailuresIn(s, run, taskId)
    decreases |run|
  {
    if run != [] {
      var u, step := Run(s, run[..|run| - 1]), run[|run| - 1];
      FailuresInStep(s, run[..|run| - 1], taskId);
      if step.Handled? {
        FailCountMoves(u.m, DeliveryAt(u, step), taskId);
      }
    }
  }

  // ---- a second decision of the same kind ----

  /** All decisions of one kind on requests of one task and session share a key, whatever the
      requests, reviewers and reasons. */
  lemma DecisionsShareTheirKey(s: System, q: Gate.GateRequest, r: Gate.GateRequest, first: Gate.GateDecision,
                               second: Gate.GateDecision, qMeta: map<string, string>, rMeta: map<string, string>)
    requires q.taskId == r.taskId && q.sessionId == r.sessionId && first.approved == second.approved
    ensures Stamped(Gate.DecisionEvent(q, first, qMeta), s.lib, s.hash).key
         == Stamped(Gate.DecisionEvent(r, second, rMeta), s.lib, s.hash).key
  {
  }

  /** No step of the run hands the entry to the manager. */
  predicate NeverAtHandler(s: System, run: seq<Step>, id: Protocol.Id)
    requires CanRun(s, run)
    decreases |run|
  {
    run == [] ||
    (&& NeverAtHandler(s, run[..|run| - 1], id)
     && var u, step := Run(s, run[..|run| - 1]), run[|run| - 1];
        step.Handled? ==> u.w.slots[step.p].at.id != id)
  }

  lemma StepKeepsPassed(u: System, step: Step, id: Protocol.Id)
    requires Protocol.Safe(u.w) && CanStep(u, step) && Protocol.Passed(u.w, id)
    ensures Protocol.Passed(DoStep(u, step).w, id)
    ensures step.Handled? ==> u.w.slots[step.p].at.id != id
    ensures id in DoStep(u, step).w.succeeded <==> id in u.w.succeeded
    ensures id in DoStep(u, step).w.refused <==> id in u.w.refused
  {
    StepReaches(u, step);
    var steps :| Protocol.CanRun(u.w, steps) && Protocol.Run(u.w, steps) == DoStep(u, step).w;
    Protocol.MarkedIsNeverHandled(u.w, steps, id);
    PassedIsElsewhere(u, step, id);
  }

  lemma PassedIsElsewhere(u: System, step: Step, id: Protocol.Id)
    requires CanStep(u, step) && Protocol.Passed(u.w, id)
    ensures step.Handled? ==> u.w.slots[step.p].at.id != id
  {
    if step.Handled? {
      assert u.w.slots[step.p].Busy? && u.w.slots[step.p].at == Protocol.Handling(u.w.slots[step.p].at.id);
    }
  }

  lemma {:induction false} PassedIsUnseen(s: System, run: seq<Step>, id: Protocol.Id)
    requires SystemSafe(s) && CanRun(s, run) && Protocol.Passed(s.w, id)
    ensures Protocol.Passed(Run(s, run).w, id) && NeverAtHandler(s, run, id)
    ensures id in Run(s, run).w.succeeded <==> id in s.w.succeeded
    ensures id in Run(s, run).w.refused <==> id in s.w.refused
    decreases |run|
  {
    if run != [] {
      PassedIsUnseen(s, run[..|run| - 1], id);
      RunKeepsSystem(s, run[..|run| - 1]);
      StepKeepsPassed(Run(s, run[..|run| - 1]), run[|run| - 1], id);
    }
  }

  /** Once a decision has been processed, the manager never sees another of the same kind for
      the task and session: however the run goes on, the second one's entry is at no handler,
      no step handles it, and so it neither succeeds nor fails. */
  lemma SecondDecisionIsUnseen(s: System, run: seq<Step>, id: Protocol.Id, q: Gate.GateRequest, r: Gate.GateRequest,
                               first: Gate.GateDecision, second: Gate.GateDecision,
                               qMeta: map<string, string>, rMeta: map<string, string>)
    requires SystemSafe(s) && CanRun(s, run)
    requires q.taskId == r.taskId && q.sessionId == r.sessionId && first.approved == second.approved
    requires id < |s.w.stream| && s.w.stream[id] == Stamped(Gate.DecisionEvent(r, second, rMeta), s.lib, s.hash)
    requires Stamped(Gate.DecisionEvent(q, first, qMeta), s.lib, s.hash).key.value in s.w.marks
    requires Stamped(Gate.DecisionEvent(q, first, qMeta), s.lib, s.hash).key != Some("")
    requires forall p :: 0 <= p < |s.w.slots| ==> !(s.w.slots[p].Busy? && s.w.slots[p].at == Protocol.Handling(id))
    ensures Protocol.Passed(Run(s, run).w, id) && NeverAtHandler(s, run, id)
    ensures id in Run(s, run).w.succeeded <==> id in s.w.succeeded
    ensures id in Run(s, run).w.refused <==> id in s.w.refused
  {
    DecisionsShareTheirKey(s, q, r, first, second, qMeta, rMeta);
    PassedIsUnseen(s, run, id);
  }

  /** A decision's entry goes from the check of its key to the manager exactly when no decision
      of the kind has been processed yet for the task and session; otherwise to the
      acknowledgement. */
  lemma DecisionReachesManagerExactly(s: System, p: nat, q: Gate.GateRequest, r: Gate.GateRequest,
                                      first: Gate.GateDecision, second: Gate.GateDecision,
                                      qMeta: map<string, string>, rMeta: map<string, string>)
    requires CanStep(s, Group(Protocol.Check(p))) && s.w.handles == HANDLED_TYPES
    requires q.taskId == r.taskId && q.sessionId == r.sessionId && first.approved == second.approved
    requires s.w.stream[s.w.slots[p].at.id] == Stamped(Gate.DecisionEvent(r, second, rMeta), s.lib, s.hash)
    requires Stamped(Gate.DecisionEvent(q, first, qMeta), s.lib, s.hash).key != Some("")
    ensures var id, at := s.w.slots[p].at.id, DoStep(s, Group(Protocol.Check(p))).w.slots[p].at;
      var marked := Stamped(Gate.DecisionEvent(q, first, qMeta), s.lib, s.hash).key.value in s.w.marks;
      && (at == Protocol.Handling(id) <==> !marked)
      && (at == Protocol.Acking(id, false) <==> marked)
  {
    DecisionsShareTheirKey(s, q, r, first, second, qMeta, rMeta);
  }
}
