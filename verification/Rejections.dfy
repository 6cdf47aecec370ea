/** The second rejection that nobody sees, from the very beginning: a run in which a task is
    created, blocked and rejected, blocked again and rejected again, and the second
    rejection is acknowledged while the task still waits at its gate. */
module Rejections {
  import opened Wrappers
  import opened Events
  import Protocol = ConsumerProtocol
  import opened Evidence
  import Gate = Dispatcher
  import opened StateMachine
  import opened Tasks
  import opened Manager
  import opened Orchestration

  ghost predicate Leads(start: System, run: seq<Step>, s: System)
  {
    CanRun(start, run) && Run(start, run) == s
  }

  lemma LeadsOn(start: System, run: seq<Step>, s: System, step: Step, t: System)
    requires Leads(start, run, s) && CanStep(s, step) && DoStep(s, step) == t
    ensures Leads(start, run + [step], t)
  {
    assert (run + [step])[..|run + [step]| - 1] == run;
  }

  /** One consumer, between batches, with the first n entries behind it. */
  predicate Resting(w: Protocol.World, n: nat)
  {
    w.slots == [Protocol.Idle] && w.delivered == n && w.handles == HANDLED_TYPES && Protocol.WellFormed(w)
  }

  function ReadOne(w: Protocol.World, at: Protocol.Await): Protocol.World
  {
    w.(slots := [Protocol.Busy(Protocol.Live, [], at)], delivered := w.delivered + 1, pending := w.pending + {w.delivered})
  }

  /** The group once its one consumer has acknowledged the next entry. */
  function Passed(w: Protocol.World): Protocol.World
  {
    w.(slots := [Protocol.Idle], delivered := w.delivered + 1, pending := w.pending + {w.delivered} - {w.delivered},
       acked := w.acked + {w.delivered})
  }

  lemma ReadsOne(w: Protocol.World, n: nat)
    requires Resting(w, n) && n < |w.stream|
    ensures Protocol.Can(w, Protocol.Read(0, 1))
    ensures Protocol.Do(w, Protocol.Read(0, 1)) == ReadOne(w, Protocol.Enter(w, Protocol.Live, n))
  {
    assert Protocol.Ids(n, 1) == [n];
    assert (set id | id in Protocol.Ids(n, 1)) == {n};
  }

  lemma AcksOne(w: Protocol.World, n: nat)
    requires Resting(w, n) && n < |w.stream|
    ensures var v := ReadOne(w, Protocol.Acking(n, false));
      && Protocol.Can(v, Protocol.Ack(0)) && Protocol.Do(v, Protocol.Ack(0)) == Passed(w)
      && Resting(Passed(w), n + 1)
  {
  }

  /** An entry of a type that the manager does not take. */
  lemma Declined(start: System, run: seq<Step>, s: System, n: nat) returns (longer: seq<Step>)
    requires Leads(start, run, s) && Resting(s.w, n) && n < |s.w.stream| && s.w.stream[n].eventType !in HANDLED_TYPES
    ensures Leads(start, longer, s.(w := Passed(s.w))) && Resting(Passed(s.w), n + 1)
  {
    var s1 := s.(w := ReadOne(s.w, Protocol.Acking(n, false)));
    ReadsOne(s.w, n);
    LeadsOn(start, run, s, Group(Protocol.Read(0, 1)), s1);
    AcksOne(s.w, n);
    longer := run + [Group(Protocol.Read(0, 1))] + [Group(Protocol.Ack(0))];
    LeadsOn(start, run + [Group(Protocol.Read(0, 1))], s1, Group(Protocol.Ack(0)), s.(w := Passed(s.w)));
  }

  /** The entry's type is taken and its key is the given one. */
  predicate Keyed(w: Protocol.World, n: nat, key: string)
  {
    n < |w.stream| && w.stream[n].eventType in w.handles && w.stream[n].key == Some(key) && key != ""
  }

  lemma ChecksOne(w: Protocol.World, n: nat, key: string)
    requires Resting(w, n) && Keyed(w, n, key)
    ensures Protocol.Enter(w, Protocol.Live, n) == Protocol.Checking(n)
    ensures var v := ReadOne(w, Protocol.Checking(n));
      && Protocol.Can(v, Protocol.Check(0))
      && Protocol.Do(v, Protocol.Check(0))
         == ReadOne(w, if key in w.marks then Protocol.Acking(n, false) else Protocol.Handling(n))
  {
  }

  lemma Checked(start: System, run: seq<Step>, s: System, n: nat, key: string) returns (longer: seq<Step>)
    requires Leads(start, run, s) && Resting(s.w, n) && Keyed(s.w, n, key)
    ensures Leads(start, longer, s.(w := ReadOne(s.w, if key in s.w.marks then Protocol.Acking(n, false)
                                                      else Protocol.Handling(n))))
  {
    var s1 := s.(w := ReadOne(s.w, Protocol.Checking(n)));
    ChecksOne(s.w, n, key);
    ReadsOne(s.w, n);
    LeadsOn(start, run, s, Group(Protocol.Read(0, 1)), s1);
    longer := run + [Group(Protocol.Read(0, 1))] + [Group(Protocol.Check(0))];
    LeadsOn(start, run + [Group(Protocol.Read(0, 1))], s1, Group(Protocol.Check(0)), Run(start, run).(
      w := ReadOne(s.w, if key in s.w.marks then Protocol.Acking(n, false) else Protocol.Handling(n))));
  }

  /** An entry whose key has been marked. */
  lemma Skipped(start: System, run: seq<Step>, s: System, n: nat, key: string) returns (longer: seq<Step>)
    requires Leads(start, run, s) && Resting(s.w, n) && Keyed(s.w, n, key) && key in s.w.marks
    ensures Leads(start, longer, s.(w := Passed(s.w))) && Resting(Passed(s.w), n + 1)
  {
    longer := Checked(start, run, s, n, key);
    AcksOne(s.w, n);
    LeadsOn(start, longer, s.(w := ReadOne(s.w, Protocol.Acking(n, false))), Group(Protocol.Ack(0)), s.(w := Passed(s.w)));
    longer := longer + [Group(Protocol.Ack(0))];
  }

  /** The group once its one consumer has processed the next entry, under the given key. */
  function Processed(w: Protocol.World, key: string, news: seq<Event>): Protocol.World
  {
    w.(slots := [Protocol.Idle], delivered := w.delivered + 1, pending := w.pending + {w.delivered} - {w.delivered},
       acked := w.acked + {w.delivered}, marks := w.marks[key := w.delivered],
       succeeded := w.succeeded + {w.delivered}, wins := w.wins + multiset{key}, stream := w.stream + news)
  }

  /** After the handler's success: the marker to write, or the acknowledgement to send. */
  function HandledOne(w: Protocol.World, key: string, news: seq<Event>, at: Protocol.Await, marks: map<string, Protocol.Id>)
    : Protocol.World
  {
    ReadOne(w, at).(succeeded := w.succeeded + {w.delivered}, wins := w.wins + multiset{key}, stream := w.stream + news,
                    marks := marks)
  }

  lemma MarksAndAcks(w: Protocol.World, n: nat, key: string, news: seq<Event>)
    requires Resting(w, n) && Keyed(w, n, key)
    ensures var v, u := HandledOne(w, key, news, Protocol.Marking(n), w.marks),
                        HandledOne(w, key, news, Protocol.Acking(n, true), w.marks[key := n]);
      && Protocol.Can(v, Protocol.Mark(0)) && Protocol.Do(v, Protocol.Mark(0)) == u
      && Protocol.Can(u, Protocol.Ack(0)) && Protocol.Do(u, Protocol.Ack(0)) == Processed(w, key, news)
      && Resting(Processed(w, key, news), n + 1)
  {
    assert (w.stream + news)[n] == w.stream[n];
  }

  lemma HandlesOne(s: System, n: nat, key: string, fuel: nat, git: Git, now: int, x: Exec)
    requires Resting(s.w, n) && Keyed(s.w, n, key)
    requires x == Handle(Exec(s.m, fuel, true), s.w.stream[n], git, now) && x.live
    ensures var u := s.(w := ReadOne(s.w, Protocol.Handling(n))); var step := Handled(0, fuel, git, now, false);
      var news := Stamps(News(s.m.published, x.s.published), s.lib, s.hash);
      CanStep(u, step) && DoStep(u, step) == s.(w := HandledOne(s.w, key, news, Protocol.Marking(n), s.w.marks), m := x.s)
  {
    var news := Stamps(News(s.m.published, x.s.published), s.lib, s.hash);
    assert (s.w.stream + news)[n] == s.w.stream[n];
  }

  /** An entry that the manager handles, and whose handling comes to its end. */
  lemma Manages(start: System, run: seq<Step>, s: System, n: nat, key: string, fuel: nat, git: Git, now: int, x: Exec)
    returns (longer: seq<Step>)
    requires Leads(start, run, s) && Resting(s.w, n) && Keyed(s.w, n, key) && key !in s.w.marks
    requires x == Handle(Exec(s.m, fuel, true), s.w.stream[n], git, now) && x.live
    ensures var w := Processed(s.w, key, Stamps(News(s.m.published, x.s.published), s.lib, s.hash));
      Leads(start, longer, s.(w := w, m := x.s)) && Resting(w, n + 1)
  {
    var news := Stamps(News(s.m.published, x.s.published), s.lib, s.hash);
    longer := Checked(start, run, s, n, key);
    var s1 := s.(w := ReadOne(s.w, Protocol.Handling(n)));
    var s2 := s.(w := HandledOne(s.w, key, news, Protocol.Marking(n), s.w.marks), m := x.s);
    var s3 := s.(w := HandledOne(s.w, key, news, Protocol.Acking(n, true), s.w.marks[key := n]), m := x.s);
    var s4 := s.(w := Processed(s.w, key, news), m := x.s);
    HandlesOne(s, n, key, fuel, git, now, x);
    LeadsOn(start, longer, s1, Handled(0, fuel, git, now, false), s2);
    longer := longer + [Handled(0, fuel, git, now, false)];
    MarksAndAcks(s.w, n, key, news);
    LeadsOn(start, longer, s2, Group(Protocol.Mark(0)), s3);
    longer := longer + [Group(Protocol.Mark(0))];
    LeadsOn(start, longer, s3, Group(Protocol.Ack(0)), s4);
    longer := longer + [Group(Protocol.Ack(0))];
  }

  /** A request is asked and rejected. */
  lemma AskedAndRejected(start: System, run: seq<Step>, s: System, n: nat, r: Gate.GateRequest, b: Bundle,
                         decision: Gate.GateDecision)
    returns (longer: seq<Step>, t: System)
    requires Leads(start, run, s) && Resting(s.w, n) && r.requestId !in s.d.requests && r.status == Gate.Pending
    requires r.bundleId == b.bundleId && ValidateEvidence(b).Ok?
    requires decision.requestId == r.requestId && !decision.approved
    ensures Leads(start, longer, t) && t.m == s.m && t.lib == s.lib && t.hash == s.hash
    ensures t.d.requests == s.d.requests[r.requestId := r.(status := Gate.Rejected)]
    ensures t.w == s.w.(stream := s.w.stream + [Asked1(s, r), Rejected1(s, r, decision)]) && Resting(t.w, n)
  {
    var asked := DoStep(s, Asked(r, b, map[]));
    var entry := Gate.GateEvent(EventType.GateRequested, r, r.requestedAt, map[]);
    assert asked.d.published == s.d.published + [entry];
    assert News(s.d.published, asked.d.published) == [entry];
    assert Stamps([entry], s.lib, s.hash) == [Asked1(s, r)];
    LeadsOn(start, run, s, Asked(r, b, map[]), asked);
    t := DoStep(asked, Decided(decision, map[]));
    var verdict := Gate.DecisionEvent(r, decision, map[]);
    assert t.d.published == asked.d.published + [verdict];
    assert News(asked.d.published, t.d.published) == [verdict];
    assert Stamps([verdict], s.lib, s.hash) == [Rejected1(s, r, decision)];
    LeadsOn(start, run + [Asked(r, b, map[])], asked, Decided(decision, map[]), t);
    longer := run + [Asked(r, b, map[])] + [Decided(decision, map[])];
    assert s.w.stream + [Asked1(s, r)] + [Rejected1(s, r, decision)]
        == s.w.stream + [Asked1(s, r), Rejected1(s, r, decision)];
  }

  /** The request's entry in the stream, and its rejection's. */
  function Asked1(s: System, r: Gate.GateRequest): Event
  {
    Stamped(Gate.GateEvent(EventType.GateRequested, r, r.requestedAt, map[]), s.lib, s.hash)
  }

  function Rejected1(s: System, r: Gate.GateRequest, decision: Gate.GateDecision): Event
  {
    Stamped(Gate.DecisionEvent(r, decision, map[]), s.lib, s.hash)
  }

  // ---- the run ----

  const CREATED := "created"

  function Creation(taskId: string, session: string): Event
  {
    Event(TaskCreated, session, 0, None, None, Some(taskId), None, [], "normal", None, Some(CREATED), map[])
  }

  /** The task waits at its gate, and one consumer has the first n entries behind it. */
  predicate Waiting(s: System, taskId: string, n: nat)
  {
    Resting(s.w, n) && |s.w.stream| == n && taskId in s.m.tasks && s.m.tasks[taskId].state == BlockedHitl
  }

  lemma TaskIsCreated(start: System, taskId: string, session: string, git: Git) returns (run: seq<Step>, s: System)
    requires Fresh(start) && start.w.slots == [Protocol.Down] && start.w.stream == [] && taskId != ""
    ensures Leads(start, run, s) && Resting(s.w, 1) && |s.w.stream| == 1
    ensures taskId in s.m.tasks && s.m.tasks[taskId].state == Pending
    ensures s.d == start.d && s.lib == start.lib && s.hash == start.hash
    ensures s.w.marks.Keys == {CREATED} && s.w.succeeded == {0} && s.w.refused == {}
  {
    var e := Creation(taskId, session);
    var s1 := start.(w := start.w.(slots := [Protocol.Idle]));
    assert Leads(start, [], start);
    LeadsOn(start, [], start, Group(Protocol.Restart(0)), s1);
    var s2 := s1.(w := s1.w.(stream := [e]));
    assert Stamps([e], s1.lib, s1.hash) == [e];
    LeadsOn(start, [] + [Group(Protocol.Restart(0))], s1, Published(e), s2);
    run := [] + [Group(Protocol.Restart(0))] + [Published(e)];
    var x := Handle(Exec(s2.m, 1, true), e, git, 0);
    assert x.live && x.s.published == s2.m.published;
    assert News(s2.m.published, x.s.published) == [];
    run := Manages(start, run, s2, 0, CREATED, 1, git, 0, x);
    s := s2.(w := Processed(s2.w, CREATED, Stamps([], s2.lib, s2.hash)), m := x.s);
  }

  lemma TaskIsBlocked(start: System, run: seq<Step>, s: System, taskId: string, n: nat)
    returns (longer: seq<Step>, t: System)
    requires Leads(start, run, s) && Resting(s.w, n) && |s.w.stream| == n
    requires taskId in s.m.tasks && s.m.tasks[taskId].state in {Pending, InProgress}
    ensures Leads(start, longer, t) && Waiting(t, taskId, n)
    ensures t.w == s.w && t.d == s.d && t.lib == s.lib && t.hash == s.hash
  {
    longer, t := run, s;
    if s.m.tasks[taskId].state == Pending {
      t := DoStep(s, Moved(taskId, InProgress, None, 0));
      LeadsOn(start, longer, s, Moved(taskId, InProgress, None, 0), t);
      longer := longer + [Moved(taskId, InProgress, None, 0)];
    }
    var u := t;
    t := DoStep(u, Moved(taskId, BlockedHitl, None, 0));
    LeadsOn(start, longer, u, Moved(taskId, BlockedHitl, None, 0), t);
    longer := longer + [Moved(taskId, BlockedHitl, None, 0)];
  }

  /** The first rejection is handled: the task goes back to work, and its key is marked. */
  lemma FirstIsHandled(start: System, run: seq<Step>, s: System, n: nat, r: Gate.GateRequest,
                       decision: Gate.GateDecision, key: string, git: Git)
    returns (longer: seq<Step>, t: System)
    requires Leads(start, run, s) && Resting(s.w, n) && |s.w.stream| == n + 2
    requires s.w.stream[n] == Asked1(s, r) && s.w.stream[n + 1] == Rejected1(s, r, decision) && !decision.approved
    requires r.taskId != "" && r.taskId in s.m.tasks && s.m.tasks[r.taskId].state == BlockedHitl
    requires Rejected1(s, r, decision).key == Some(key) && key != "" && key !in s.w.marks
    ensures Leads(start, longer, t) && Resting(t.w, n + 2) && |t.w.stream| == n + 3
    ensures t.w.stream[n + 2].eventType == AgentStarted
    ensures r.taskId in t.m.tasks && t.m.tasks[r.taskId].state == InProgress
    ensures t.d == s.d && t.lib == s.lib && t.hash == s.hash
    ensures t.w.marks == s.w.marks[key := n + 1] && t.w.succeeded == s.w.succeeded + {n + 1} && t.w.refused == s.w.refused
  {
    longer := Declined(start, run, s, n);
    var s1 := s.(w := Passed(s.w));
    var e := Rejected1(s, r, decision);
    var x := Handle(Exec(s1.m, 4, true), e, git, 0);
    assert e.eventType == GateRejected && e.taskId == Some(r.taskId);
    RejectionIsHandled(s1.m, e, r.taskId, git, x);
    longer := Manages(start, longer, s1, n + 1, key, 4, git, 0, x);
    var note := x.s.published[|s.m.published|];
    assert News(s1.m.published, x.s.published) == [note];
    t := s1.(w := Processed(s1.w, key, Stamps([note], s.lib, s.hash)), m := x.s);
  }

  lemma RejectionIsHandled(m: Managed, e: Event, taskId: string, git: Git, x: Exec)
    requires e.eventType == GateRejected && e.taskId == Some(taskId) && taskId != ""
    requires taskId in m.tasks && m.tasks[taskId].state == BlockedHitl && x == Handle(Exec(m, 4, true), e, git, 0)
    ensures x.live && taskId in x.s.tasks && x.s.tasks[taskId].state == InProgress
    ensures |x.s.published| == |m.published| + 1 && x.s.published[..|m.published|] == m.published
    ensures x.s.published[|m.published|].eventType == AgentStarted
  {
    var c := Increment(Await(Exec(m, 4, true)), taskId, 0);
    assert c.live && c.s.tasks[taskId].state == BlockedHitl;
    var u := UpdateState(c, taskId, InProgress, None, 0);
    assert u.live && u.s.published == m.published;
  }

  /** Created and blocked at its gate. */
  lemma TaskWaits(start: System, taskId: string, session: string, git: Git) returns (run: seq<Step>, s: System)
    requires Fresh(start) && start.w.slots == [Protocol.Down] && start.w.stream == [] && taskId != ""
    ensures Leads(start, run, s) && Waiting(s, taskId, 1)
    ensures s.d == start.d && s.lib == start.lib && s.hash == start.hash
    ensures s.w.marks.Keys == {CREATED} && s.w.succeeded == {0} && s.w.refused == {}
  {
    run, s := TaskIsCreated(start, taskId, session, git);
    run, s := TaskIsBlocked(start, run, s, taskId, 1);
  }

  /** A rejection that is handled, and the task blocked again. */
  lemma RoundHandled(start: System, run: seq<Step>, s: System, q: Gate.GateRequest, b: Bundle,
                     first: Gate.GateDecision, key: string, git: Git)
    returns (longer: seq<Step>, t: System)
    requires Leads(start, run, s) && Waiting(s, q.taskId, 1) && q.requestId !in s.d.requests
    requires ValidateEvidence(b).Ok? && q.bundleId == b.bundleId && q.taskId != "" && q.status == Gate.Pending
    requires first.requestId == q.requestId && !first.approved
    requires Rejected1(s, q, first).key == Some(key) && key != "" && key !in s.w.marks
    ensures Leads(start, longer, t) && Waiting(t, q.taskId, 4) && t.lib == s.lib && t.hash == s.hash
    ensures t.d.requests.Keys == s.d.requests.Keys + {q.requestId} && key in t.w.marks
    ensures t.w.succeeded == s.w.succeeded + {2} && t.w.refused == s.w.refused
  {
    longer, t := AskedAndRejected(start, run, s, 1, q, b, first);
    longer, t := FirstIsHandled(start, longer, t, 1, q, first, key, git);
    longer := Declined(start, longer, t, 3);
    t := t.(w := Passed(t.w));
    longer, t := TaskIsBlocked(start, longer, t, q.taskId, 4);
  }

  /** The first round: created, blocked, rejected, and blocked again. */
  lemma FirstRound(start: System, q: Gate.GateRequest, b: Bundle, first: Gate.GateDecision, git: Git)
    returns (run: seq<Step>, s: System)
    requires Fresh(start) && start.w.slots == [Protocol.Down] && start.w.stream == []
    requires ValidateEvidence(b).Ok? && q.bundleId == b.bundleId && q.taskId != "" && q.status == Gate.Pending
    requires first.requestId == q.requestId && !first.approved
    requires Rejected1(start, q, first).key !in {Some(""), Some(CREATED)}
    ensures Leads(start, run, s) && Waiting(s, q.taskId, 4) && s.lib == start.lib && s.hash == start.hash
    ensures s.d.requests.Keys == {q.requestId} && Rejected1(start, q, first).key.value in s.w.marks
    ensures s.w.succeeded == {0, 2} && s.w.refused == {}
  {
    run, s := TaskWaits(start, q.taskId, q.sessionId, git);
    run, s := RoundHandled(start, run, s, q, b, first, Rejected1(start, q, first).key.value, git);
  }

  /** The second round: rejected once more, with the key already marked. */
  lemma SecondRound(start: System, run: seq<Step>, s: System, n: nat, r: Gate.GateRequest, b: Bundle,
                    second: Gate.GateDecision, key: string)
    returns (longer: seq<Step>, t: System)
    requires Leads(start, run, s) && Waiting(s, r.taskId, n) && r.requestId !in s.d.requests && r.status == Gate.Pending
    requires ValidateEvidence(b).Ok? && r.bundleId == b.bundleId
    requires second.requestId == r.requestId && !second.approved
    requires Rejected1(s, r, second).key == Some(key) && key != "" && key in s.w.marks
    ensures Leads(start, longer, t)
    ensures n + 1 < |t.w.stream| && t.w.stream[n + 1] == Rejected1(s, r, second)
    ensures r.requestId in t.d.requests && t.d.requests[r.requestId].status == Gate.Rejected
    ensures n + 1 in t.w.acked && t.w.succeeded == s.w.succeeded && t.w.refused == s.w.refused
    ensures t.m == s.m
  {
    var u;
    longer, u := AskedAndRejected(start, run, s, n, r, b, second);
    longer := Declined(start, longer, u, n);
    u := u.(w := Passed(u.w));
    longer := Skipped(start, longer, u, n + 1, key);
    t := u.(w := Passed(u.w));
  }

  /** From any fresh system with one consumer there is a run at the end of which the second
      rejection has been published, delivered and acknowledged, but neither handled nor
      refused, and its task is still BLOCKED_HITL. All it takes is that the hash does not
      confuse the rejections' key with the creation's. */
  lemma SecondRejectionIsLost(start: System, q: Gate.GateRequest, r: Gate.GateRequest, b: Bundle,
                              first: Gate.GateDecision, second: Gate.GateDecision, git: Git)
    returns (run: seq<Step>, t: System, id: Protocol.Id)
    requires Fresh(start) && start.w.slots == [Protocol.Down] && start.w.stream == []
    requires ValidateEvidence(b).Ok? && q.bundleId == b.bundleId && r.bundleId == b.bundleId
    requires q.taskId == r.taskId != "" && q.sessionId == r.sessionId && q.requestId != r.requestId
    requires q.status == Gate.Pending && r.status == Gate.Pending
    requires first.requestId == q.requestId && second.requestId == r.requestId && !first.approved && !second.approved
    requires Rejected1(start, q, first).key !in {Some(""), Some(CREATED)}
    ensures Leads(start, run, t)
    ensures id < |t.w.stream| && t.w.stream[id] == Rejected1(start, r, second)
    ensures r.requestId in t.d.requests && t.d.requests[r.requestId].status == Gate.Rejected
    ensures id in t.w.acked && id !in t.w.succeeded && id !in t.w.refused
    ensures r.taskId in t.m.tasks && t.m.tasks[r.taskId].state == BlockedHitl
  {
    var s;
    run, s := FirstRound(start, q, b, first, git);
    DecisionsShareTheirKey(start, q, r, first, second, map[], map[]);
    run, t := SecondRound(start, run, s, 4, r, b, second, Rejected1(start, q, first).key.value);
    id := 5;
  }
}
