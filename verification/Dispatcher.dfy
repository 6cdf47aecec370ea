/** The human-in-the-loop dispatcher and its audit trail (src/orchestrator/hitl_dispatcher.py). */
module Dispatcher {
  import opened Wrappers
  import opened Text
  import opened Events
  import opened Evidence

  datatype GateStatus = Pending | Approved | Rejected | Expired

  datatype GateRequest = GateRequest(
    requestId: Uuid,
    taskId: string,
    sessionId: string,
    gateType: GateType,
    status: GateStatus,
    bundleId: Uuid,
    requestedBy: string,
    requestedAt: int,
    expiresAt: Option<int>)

  datatype GateDecision = GateDecision(
    decisionId: Uuid, requestId: Uuid, approved: bool, reviewer: string, reason: string, decidedAt: int)

  datatype LogEntry =
    | Requested(requestId: Uuid, taskId: string, gateType: GateType, requestedBy: string)
    | Decided(requestId: Uuid, decisionId: Uuid, taskId: string, gateType: GateType,
              approved: bool, reviewer: string, reason: string)

  datatype GateError =
    | BadEvidence(error: EvidenceError)
    | RequestNotFound(requestId: Uuid)
    | NotPending(requestId: Uuid, status: GateStatus)

  /** What the dispatcher keeps in the store: the request hashes, the bundle hashes, the
      pending set with its scores (None for an infinite one), the per-task decision logs,
      the audit stream, and the events it has published. */
  datatype Gates = Gates(
    requests: map<Uuid, GateRequest>,
    bundles: map<Uuid, Bundle>,
    pending: map<Uuid, Option<int>>,
    taskLog: map<string, seq<LogEntry>>,
    audit: seq<LogEntry>,
    published: seq<Event>)

  // ---- request_gate, record_decision, check_expired as functions of the store ----

  function Appended(taskLog: map<string, seq<LogEntry>>, entry: LogEntry): map<string, seq<LogEntry>>
  {
    taskLog[entry.taskId := (if entry.taskId in taskLog then taskLog[entry.taskId] else []) + [entry]]
  }

  function GateEvent(t: EventType, r: GateRequest, now: int, metadata: map<string, string>): Event
  {
    Event(t, r.sessionId, now, None, None, Some(r.taskId), None, [], "normal", None, None, metadata)
  }

  function RequestEntry(r: GateRequest): LogEntry
  {
    Requested(r.requestId, r.taskId, r.gateType, r.requestedBy)
  }

  function Requesting(d: Gates, r: GateRequest, b: Bundle, metadata: map<string, string>): Gates
  {
    Gates(d.requests[r.requestId := r],
          d.bundles[b.bundleId := b],
          d.pending[r.requestId := r.expiresAt],
          Appended(d.taskLog, RequestEntry(r)),
          d.audit + [RequestEntry(r)],
          d.published + [GateEvent(EventType.GateRequested, r, r.requestedAt, metadata)])
  }

  function Verdict(approved: bool): GateStatus
  {
    if approved then Approved else Rejected
  }

  function DecisionEntry(r: GateRequest, decision: GateDecision): LogEntry
  {
    Decided(decision.requestId, decision.decisionId, r.taskId, r.gateType,
            decision.approved, decision.reviewer, decision.reason)
  }

  function DecisionEvent(r: GateRequest, decision: GateDecision, metadata: map<string, string>): Event
  {
    GateEvent(if decision.approved then EventType.GateApproved else EventType.GateRejected, r,
              decision.decidedAt, metadata)
  }

  function Deciding(d: Gates, decision: GateDecision, metadata: map<string, string>): Gates
    requires decision.requestId in d.requests
  {
    var id := decision.requestId;
    var r := d.requests[id];
    Gates(d.requests[id := r.(status := Verdict(decision.approved))],
          d.bundles,
          d.pending - {id},
          Appended(d.taskLog, DecisionEntry(r, decision)),
          d.audit + [DecisionEntry(r, decision)],
          d.published + [DecisionEvent(r, decision, metadata)])
  }

  predicate IsPending(d: Gates, id: Uuid)
  {
    id in d.requests && d.requests[id].status == Pending
  }

  function Expiring(d: Gates, id: Uuid, now: int): Gates
    requires IsPending(d, id)
  {
    var r := d.requests[id].(status := Expired);
    d.(requests := d.requests[id := r],
       pending := d.pending - {id},
       published := d.published + [GateEvent(EventType.GateExpired, r, now, map["request_id" := Decimal(id)])])
  }

  /** The sweep over the ids that the range query returned, in their order. */
  function Sweeping(d: Gates, ids: seq<Uuid>, now: int): Gates
  {
    if ids == [] then d
    else
      var before := Sweeping(d, ids[..|ids| - 1], now);
      var id := ids[|ids| - 1];
      if IsPending(before, id) then Expiring(before, id, now) else before
  }

  /** The ids whose score lies between zero and now. */
  function Due(d: Gates, now: int): set<Uuid>
  {
    set id | id in d.pending && d.pending[id].Some? && 0 <= d.pending[id].value <= now
  }

  // ---- the invariant ----

  function WithStatus(d: Gates, s: GateStatus): set<Uuid>
  {
    set id | id in d.requests && d.requests[id].status == s
  }

  function CountType(events: seq<Event>, t: EventType): nat
  {
    if events == [] then 0
    else CountType(events[..|events| - 1], t) + (if events[|events| - 1].eventType == t then 1 else 0)
  }

  function CountRequested(log: seq<LogEntry>): nat
  {
    if log == [] then 0
    else CountRequested(log[..|log| - 1]) + (if log[|log| - 1].Requested? then 1 else 0)
  }

  function CountDecided(log: seq<LogEntry>, approved: bool): nat
  {
    if log == [] then 0
    else
      var last := log[|log| - 1];
      CountDecided(log[..|log| - 1], approved) + (if last.Decided? && last.approved == approved then 1 else 0)
  }

  function OfTask(log: seq<LogEntry>, taskId: string): seq<LogEntry>
  {
    if log == [] then []
    else
      var earlier := OfTask(log[..|log| - 1], taskId);
      if log[|log| - 1].taskId == taskId then earlier + [log[|log| - 1]] else earlier
  }

  /** The pending set is exactly the PENDING requests, each under its expiry, and every
      request's bundle is stored and has passed validation. */
  predicate Indexed(d: Gates)
  {
    && d.pending.Keys == WithStatus(d, Pending)
    && (forall id :: id in d.pending ==> d.pending[id] == d.requests[id].expiresAt)
    && (forall id :: id in d.requests ==> d.requests[id].requestId == id && Evidenced(d, d.requests[id]))
  }

  predicate Evidenced(d: Gates, r: GateRequest)
  {
    r.bundleId in d.bundles && ValidateEvidence(d.bundles[r.bundleId]).Ok?
  }

  /** Requests, published events and log entries tell the same story. */
  predicate Tallied(d: Gates)
  {
    && CountType(d.published, EventType.GateRequested) == |d.requests| == CountRequested(d.audit)
    && CountType(d.published, EventType.GateApproved) == |WithStatus(d, Approved)| == CountDecided(d.audit, true)
    && CountType(d.published, EventType.GateRejected) == |WithStatus(d, Rejected)| == CountDecided(d.audit, false)
    && CountType(d.published, EventType.GateExpired) == |WithStatus(d, Expired)|
  }

  /** Each task's own log is the audit stream restricted to the task. */
  ghost predicate Audited(audit: seq<LogEntry>, taskLog: map<string, seq<LogEntry>>)
  {
    forall t: string :: OfTask(audit, t) == if t in taskLog then taskLog[t] else []
  }

  ghost predicate GatesValid(d: Gates)
  {
    Indexed(d) && Tallied(d) && Audited(d.audit, d.taskLog)
  }

  const NO_GATES := Gates(map[], map[], map[], map[], [], [])

  /** What no operation changes: a request keeps everything but its status, and once it has
      left PENDING it keeps that too. */
  predicate Settling(d: Gates, e: Gates)
  {
    && d.published <= e.published && d.audit <= e.audit
    && forall id :: id in d.requests ==>
         && id in e.requests
         && e.requests[id] == d.requests[id].(status := e.requests[id].status)
         && (d.requests[id].status != Pending ==> e.requests[id] == d.requests[id])
  }

  lemma StatusMoves(d: Gates, e: Gates, id: Uuid, source: GateStatus, target: GateStatus)
    requires id in d.requests && d.requests[id].status == source && source != target
    requires e.requests == d.requests[id := d.requests[id].(status := target)]
    ensures WithStatus(e, source) == WithStatus(d, source) - {id}
    ensures WithStatus(e, target) == WithStatus(d, target) + {id} && id !in WithStatus(d, target)
    ensures forall s :: s != source && s != target ==> WithStatus(e, s) == WithStatus(d, s)
  {
  }

  lemma AppendedAudited(audit: seq<LogEntry>, taskLog: map<string, seq<LogEntry>>, entry: LogEntry)
    requires Audited(audit, taskLog)
    ensures Audited(audit + [entry], Appended(taskLog, entry))
  {
    var grown := Appended(taskLog, entry);
    assert (audit + [entry])[..|audit + [entry]| - 1] == audit;
    forall t: string ensures OfTask(audit + [entry], t) == if t in grown then grown[t] else [] {
      assert OfTask(audit, t) == if t in taskLog then taskLog[t] else [];
    }
  }

  lemma OneMoreEvent(events: seq<Event>, e: Event)
    ensures forall t :: CountType(events + [e], t) == CountType(events, t) + (if e.eventType == t then 1 else 0)
  {
    assert (events + [e])[..|events + [e]| - 1] == events;
  }

  lemma OneMoreEntry(log: seq<LogEntry>, entry: LogEntry)
    ensures CountRequested(log + [entry]) == CountRequested(log) + (if entry.Requested? then 1 else 0)
    ensures forall b :: CountDecided(log + [entry], b)
                        == CountDecided(log, b) + (if entry.Decided? && entry.approved == b then 1 else 0)
  {
    assert (log + [entry])[..|log + [entry]| - 1] == log;
  }

  // ---- every operation keeps the invariant ----

  lemma AddedIndexed(d: Gates, e: Gates, r: GateRequest, b: Bundle)
    requires Indexed(d) && r.requestId !in d.requests && r.status == Pending
    requires r.bundleId == b.bundleId && ValidateEvidence(b).Ok?
    requires e.requests == d.requests[r.requestId := r] && e.bundles == d.bundles[b.bundleId := b]
    requires e.pending == d.pending[r.requestId := r.expiresAt]
    ensures Indexed(e)
  {
    assert WithStatus(e, Pending) == WithStatus(d, Pending) + {r.requestId};
    forall id | id in e.requests ensures e.requests[id].requestId == id && Evidenced(e, e.requests[id]) {
      if id != r.requestId {
        assert Evidenced(d, d.requests[id]);
      }
    }
  }

  lemma AddedStatuses(d: Gates, e: Gates, r: GateRequest)
    requires r.requestId !in d.requests && r.status == Pending && e.requests == d.requests[r.requestId := r]
    ensures forall s :: s != Pending ==> WithStatus(e, s) == WithStatus(d, s)
    ensures |e.requests| == |d.requests| + 1
  {
    assert e.requests.Keys == d.requests.Keys + {r.requestId};
    assert |e.requests| == |e.requests.Keys| && |d.requests| == |d.requests.Keys|;
  }

  lemma AddedTallied(d: Gates, e: Gates, r: GateRequest, event: Event, entry: LogEntry)
    requires Tallied(d) && r.requestId !in d.requests && r.status == Pending
    requires e.requests == d.requests[r.requestId := r]
    requires e.published == d.published + [event] && e.audit == d.audit + [entry]
    requires event.eventType == EventType.GateRequested && entry.Requested?
    ensures Tallied(e)
  {
    AddedStatuses(d, e, r);
    OneMoreEvent(d.published, event);
    OneMoreEntry(d.audit, entry);
  }

  lemma AddedSettling(d: Gates, e: Gates, r: GateRequest)
    requires r.requestId !in d.requests && e.requests == d.requests[r.requestId := r]
    requires d.published <= e.published && d.audit <= e.audit
    ensures Settling(d, e)
  {
  }

  lemma RequestingKeeps(d: Gates, r: GateRequest, b: Bundle, metadata: map<string, string>)
    requires GatesValid(d) && r.requestId !in d.requests && r.status == Pending
    requires r.bundleId == b.bundleId && ValidateEvidence(b).Ok?
    ensures var e := Requesting(d, r, b, metadata); GatesValid(e) && Settling(d, e)
  {
    var e := Requesting(d, r, b, metadata);
    AddedIndexed(d, e, r, b);
    AddedTallied(d, e, r, GateEvent(EventType.GateRequested, r, r.requestedAt, metadata), RequestEntry(r));
    AddedSettling(d, e, r);
    AppendedAudited(d.audit, d.taskLog, RequestEntry(r));
  }

  /** A request leaves PENDING: what that does to the index, whichever way it goes. */
  lemma LeavingIndexed(d: Gates, e: Gates, id: Uuid, target: GateStatus)
    requires Indexed(d) && IsPending(d, id) && target != Pending
    requires e.requests == d.requests[id := d.requests[id].(status := target)]
    requires e.pending == d.pending - {id} && e.bundles == d.bundles
    requires d.published <= e.published && d.audit <= e.audit
    ensures Indexed(e) && Settling(d, e)
  {
    StatusMoves(d, e, id, Pending, target);
    forall other | other in e.requests ensures Evidenced(e, e.requests[other]) {
      assert Evidenced(d, d.requests[other]);
    }
  }

  /** Leaving PENDING for one of the other states moves one request from one count to the
      other. */
  lemma MovedCounts(d: Gates, e: Gates, id: Uuid, target: GateStatus)
    requires IsPending(d, id) && target != Pending
    requires e.requests == d.requests[id := d.requests[id].(status := target)]
    ensures |e.requests| == |d.requests|
    ensures forall s :: s != Pending ==> |WithStatus(e, s)| == |WithStatus(d, s)| + (if s == target then 1 else 0)
  {
    StatusMoves(d, e, id, Pending, target);
    assert e.requests.Keys == d.requests.Keys;
    assert |e.requests| == |e.requests.Keys| && |d.requests| == |d.requests.Keys|;
  }

  lemma MovedTally(d: Gates, e: Gates, decision: GateDecision, event: Event, entry: LogEntry)
    requires Tallied(d) && |e.requests| == |d.requests|
    requires forall s :: s != Pending ==>
      |WithStatus(e, s)| == |WithStatus(d, s)| + (if s == Verdict(decision.approved) then 1 else 0)
    requires e.published == d.published + [event] && e.audit == d.audit + [entry]
    requires event.eventType == if decision.approved then EventType.GateApproved else EventType.GateRejected
    requires entry.Decided? && entry.approved == decision.approved
    ensures Tallied(e)
  {
    OneMoreEvent(d.published, event);
    OneMoreEntry(d.audit, entry);
  }

  lemma DecidingKeeps(d: Gates, decision: GateDecision, metadata: map<string, string>)
    requires GatesValid(d) && IsPending(d, decision.requestId)
    ensures var e := Deciding(d, decision, metadata); GatesValid(e) && Settling(d, e)
  {
    var e := Deciding(d, decision, metadata);
    var r := d.requests[decision.requestId];
    LeavingIndexed(d, e, decision.requestId, Verdict(decision.approved));
    MovedCounts(d, e, decision.requestId, Verdict(decision.approved));
    MovedTally(d, e, decision, DecisionEvent(r, decision, metadata), DecisionEntry(r, decision));
    AppendedAudited(d.audit, d.taskLog, DecisionEntry(r, decision));
  }

  lemma ExpiringTallied(d: Gates, id: Uuid, now: int)
    requires Tallied(d) && IsPending(d, id)
    ensures Tallied(Expiring(d, id, now))
  {
    var e := Expiring(d, id, now);
    MovedCounts(d, e, id, Expired);
    OneMoreEvent(d.published, e.published[|d.published|]);
  }

  lemma ExpiringKeeps(d: Gates, id: Uuid, now: int)
    requires GatesValid(d) && IsPending(d, id)
    ensures var e := Expiring(d, id, now); GatesValid(e) && Settling(d, e)
  {
    LeavingIndexed(d, Expiring(d, id, now), id, Expired);
    ExpiringTallied(d, id, now);
  }

  lemma SettlingOn(d: Gates, e: Gates, f: Gates)
    requires Settling(d, e) && Settling(e, f)
    ensures Settling(d, f)
  {
  }

  lemma {:induction false} SweepingKeeps(d: Gates, ids: seq<Uuid>, now: int)
    requires GatesValid(d)
    ensures var e := Sweeping(d, ids, now); GatesValid(e) && Settling(d, e)
    decreases |ids|
  {
    if ids != [] {
      SweepingKeeps(d, ids[..|ids| - 1], now);
      var before := Sweeping(d, ids[..|ids| - 1], now);
      if IsPending(before, ids[|ids| - 1]) {
        ExpiringKeeps(before, ids[|ids| - 1], now);
        SettlingOn(d, before, Sweeping(d, ids, now));
      }
    }
  }

  /** Sweeping a list of ids expires exactly the pending ones among them. */
  lemma {:induction false} SweepingExpires(d: Gates, ids: seq<Uuid>, now: int)
    ensures var e := Sweeping(d, ids, now);
      && e.requests.Keys == d.requests.Keys
      && forall id :: id in d.requests ==>
           e.requests[id] == if IsPending(d, id) && id in ids then d.requests[id].(status := Expired) else d.requests[id]
    decreases |ids|
  {
    if ids != [] {
      var front, last := ids[..|ids| - 1], ids[|ids| - 1];
      SweepingExpires(d, front, now);
      assert forall id :: id in ids <==> id in front || id == last;
    }
  }

  /** A sweep at `now` expires exactly the pending requests whose expiry lies between zero
      and now, and leaves every other request alone. */
  lemma SweepIsExact(d: Gates, ids: seq<Uuid>, now: int)
    requires Indexed(d) && (forall id :: id in ids <==> id in Due(d, now))
    ensures Sweeping(d, ids, now).requests.Keys == d.requests.Keys
    ensures forall id :: id in d.requests ==>
      Sweeping(d, ids, now).requests[id]
      == if Lapsed(d.requests[id], now) then d.requests[id].(status := Expired) else d.requests[id]
  {
    SweepingExpires(d, ids, now);
    forall id | id in d.requests
      ensures Lapsed(d.requests[id], now) <==> IsPending(d, id) && id in ids
    {
      assert id in d.pending <==> id in WithStatus(d, Pending);
      assert id in ids <==> id in Due(d, now);
    }
  }

  lemma NothingLapsed(d: Gates, now: int)
    requires Indexed(d) && forall id :: id in d.requests ==> !Lapsed(d.requests[id], now)
    ensures Due(d, now) == {}
  {
    forall id | id in d.pending ensures id !in Due(d, now) {
      assert id in WithStatus(d, Pending);
    }
  }

  /** After a sweep nothing is due any more. */
  lemma SweepClears(d: Gates, ids: seq<Uuid>, now: int)
    requires GatesValid(d) && (forall id :: id in ids <==> id in Due(d, now))
    ensures GatesValid(Sweeping(d, ids, now)) && Due(Sweeping(d, ids, now), now) == {}
  {
    SweepingKeeps(d, ids, now);
    SweepIsExact(d, ids, now);
    NothingLapsed(Sweeping(d, ids, now), now);
  }

  /** A decision at `now` is taken on a request whose time has come exactly when the request
      is due: still in the pending set, and not swept yet. */
  lemma LateDecisionsExactly(d: Gates, decision: GateDecision, now: int)
    requires Indexed(d)
    ensures IsPending(d, decision.requestId) && Lapsed(d.requests[decision.requestId], now)
            <==> decision.requestId in Due(d, now)
  {
    var id := decision.requestId;
    assert id in d.pending <==> id in WithStatus(d, Pending);
  }

  /** Right after a sweep at `now` no decision at `now`, or earlier, is late. */
  lemma NoLateDecisionAfterSweep(d: Gates, ids: seq<Uuid>, now: int, decision: GateDecision, at: int)
    requires GatesValid(d) && (forall id :: id in ids <==> id in Due(d, now)) && at <= now
    ensures var e := Sweeping(d, ids, now);
      !(IsPending(e, decision.requestId) && Lapsed(e.requests[decision.requestId], at))
  {
    SweepClears(d, ids, now);
    LateDecisionsExactly(Sweeping(d, ids, now), decision, now);
  }

  /** It does happen: a request that expires at time 1 is approved at time 5. */
  lemma LapsedRequestIsApproved(r: GateRequest, b: Bundle, decision: GateDecision) returns (d: Gates)
    requires r.status == Pending && r.expiresAt == Some(1) && r.bundleId == b.bundleId && ValidateEvidence(b).Ok?
    requires decision.requestId == r.requestId && decision.approved && decision.decidedAt == 5
    ensures d == Requesting(NO_GATES, r, b, map[]) && GatesValid(d)
    ensures IsPending(d, r.requestId) && Lapsed(d.requests[r.requestId], decision.decidedAt)
    ensures var e := Deciding(d, decision, map[]);
      GatesValid(e) && e.requests[r.requestId].status == Approved
      && e.published[|d.published|].eventType == EventType.GateApproved
  {
    assert WithStatus(NO_GATES, Pending) == {} && WithStatus(NO_GATES, Approved) == {};
    assert WithStatus(NO_GATES, Rejected) == {} && WithStatus(NO_GATES, Expired) == {};
    RequestingKeeps(NO_GATES, r, b, map[]);
    d := Requesting(NO_GATES, r, b, map[]);
    DecidingKeeps(d, decision, map[]);
  }

  /** The request is still open although its time has come. */
  predicate Lapsed(r: GateRequest, now: int)
  {
    r.status == Pending && r.expiresAt.Some? && 0 <= r.expiresAt.value <= now
  }

  // ---- the dispatcher ----

  class HitlDispatcher {
    var requests: map<Uuid, GateRequest>
    var bundles: map<Uuid, Bundle>
    var pending: map<Uuid, Option<int>>
    var taskLog: map<string, seq<LogEntry>>
    var audit: seq<LogEntry>
    var published: seq<Event>

    constructor ()
      ensures Valid() && State() == NO_GATES
    {
      requests, bundles, pending, taskLog, audit, published := map[], map[], map[], map[], [], [];
    }

    function State(): Gates
      reads this
    {
      Gates(requests, bundles, pending, taskLog, audit, published)
    }

    ghost predicate Valid()
      reads this
    {
      GatesValid(State())
    }

    method AppendLog(entry: LogEntry)
      modifies this`taskLog, this`audit
      ensures taskLog == Appended(old(taskLog), entry) && audit == old(audit) + [entry]
    {
      var earlier := if entry.taskId in taskLog then taskLog[entry.taskId] else [];
      taskLog := taskLog[entry.taskId := earlier + [entry]];
      audit := audit + [entry];
    }

    /** `request_gate`. A request is created exactly when the bundle passes validation; the
        id is a new one, and a time to live of zero means no expiry. */
    method RequestGate(id: Uuid, taskId: string, sessionId: string, gateType: GateType, bundle: Bundle,
                       requestedBy: string, ttlSeconds: int, now: int, metadata: map<string, string>)
      returns (result: Result<GateRequest, GateError>)
      requires Valid() && id !in requests
      modifies this
      ensures Valid() && Settling(old(State()), State())
      ensures result.Ok? <==> ValidateEvidence(bundle).Ok?
      ensures result.Err? ==> State() == old(State())
      ensures result.Ok? ==>
        && result.value == GateRequest(id, taskId, sessionId, gateType, Pending, bundle.bundleId, requestedBy, now,
                                       if ttlSeconds == 0 then None else Some(now + ttlSeconds))
        && State() == Requesting(old(State()), result.value, bundle, metadata)
      ensures result.Ok? ==>
        && requests == old(requests)[id := result.value] && bundles == old(bundles)[bundle.bundleId := bundle]
        && pending == old(pending)[id := if ttlSeconds == 0 then None else Some(now + ttlSeconds)]
        && Published(old(published), published, EventType.GateRequested, sessionId, taskId, now, metadata)
        && Logged(old(audit), audit, old(taskLog), taskLog, taskId, Requested(id, taskId, gateType, requestedBy))
    {
      var valid := ValidateEvidence(bundle);
      if valid.Err? {
        return Err(BadEvidence(valid.error));
      }
      var expiresAt := None;
      if ttlSeconds != 0 {
        expiresAt := Some(now + ttlSeconds);
      }
      var request := GateRequest(id, taskId, sessionId, gateType, Pending, bundle.bundleId, requestedBy, now, expiresAt);
      ghost var start := State();
      requests := requests[id := request];
      bundles := bundles[bundle.bundleId := bundle];
      pending := pending[id := expiresAt];
      AppendLog(RequestEntry(request));
      published := published + [GateEvent(EventType.GateRequested, request, now, metadata)];
      assert State() == Requesting(start, request, bundle, metadata);
      RequestingKeeps(start, request, bundle, metadata);
      result := Ok(request);
    }

    /** `record_decision`. It is taken exactly when the request exists and is PENDING; its
        expiry plays no part. */
    method RecordDecision(decision: GateDecision, metadata: map<string, string>)
      returns (result: Result<GateDecision, GateError>)
      requires Valid()
      modifies this
      ensures Valid() && Settling(old(State()), State())
      ensures result.Ok? <==> old(IsPending(State(), decision.requestId))
      ensures result.Err? ==> State() == old(State())
      ensures result.Ok? ==> result.value == decision && State() == Deciding(old(State()), decision, metadata)
      ensures result.Ok? ==>
        var r := old(requests)[decision.requestId];
        && requests == old(requests)[r.requestId := r.(status := if decision.approved then Approved else Rejected)]
        && bundles == old(bundles) && pending == old(pending) - {r.requestId}
        && Published(old(published), published,
                     if decision.approved then EventType.GateApproved else EventType.GateRejected,
                     r.sessionId, r.taskId, decision.decidedAt, metadata)
        && Logged(old(audit), audit, old(taskLog), taskLog, r.taskId,
                  Decided(r.requestId, decision.decisionId, r.taskId, r.gateType, decision.approved,
                          decision.reviewer, decision.reason))
    {
      var id := decision.requestId;
      if id !in requests {
        return Err(RequestNotFound(id));
      }
      var request := requests[id];
      if request.status != Pending {
        return Err(NotPending(id, request.status));
      }
      ghost var start := State();
      Decide(decision, metadata);
      DecidingKeeps(start, decision, metadata);
      result := Ok(decision);
    }

    /** The writes of a decision: status, pending set, log, event. */
    method Decide(decision: GateDecision, metadata: map<string, string>)
      requires IsPending(State(), decision.requestId)
      modifies this
      ensures State() == Deciding(old(State()), decision, metadata)
    {
      var id := decision.requestId;
      var request := requests[id];
      requests := requests[id := request.(status := Verdict(decision.approved))];
      pending := pending - {id};
      AppendLog(DecisionEntry(request, decision));
      published := published + [DecisionEvent(request, decision, metadata)];
    }

    /** `check_expired`, with the reply of the range query over the pending set. */
    method CheckExpired(now: int, reply: seq<Uuid>) returns (expired: seq<GateRequest>)
      requires Valid() && forall id :: id in reply <==> id in Due(State(), now)
      modifies this
      ensures Valid() && Settling(old(State()), State())
      ensures State() == Sweeping(old(State()), reply, now)
      ensures forall id :: id in old(requests) ==>
        requests[id] == if Lapsed(old(requests)[id], now) then old(requests)[id].(status := Expired) else old(requests)[id]
      ensures forall r :: r in expired <==>
        exists id :: id in old(requests) && Lapsed(old(requests)[id], now) && r == old(requests)[id].(status := Expired)
      ensures Due(State(), now) == {}
      ensures taskLog == old(taskLog) && audit == old(audit) && bundles == old(bundles)
      ensures Announces(old(published), published, expired, now)
    {
      ghost var start := State();
      expired := Sweep(now, reply);
      SweepClears(start, reply, now);
      SweepIsExact(start, reply, now);
      SweepingKeeps(start, reply, now);
      SweptAreLapsed(start, reply, now);
    }

    /** The loop of the sweep. */
    method Sweep(now: int, reply: seq<Uuid>) returns (expired: seq<GateRequest>)
      requires Named(requests)
      modifies this`requests, this`pending, this`published
      ensures State() == Sweeping(old(State()), reply, now) && Lists(expired, old(State()), reply)
      ensures Announces(old(published), published, expired, now)
    {
      ghost var start := State();
      expired := [];
      ghost var done := [];
      for i := 0 to |reply|
        invariant done == reply[..i] && State() == Sweeping(start, done, now) && Named(requests)
        invariant Lists(expired, start, done) && Announces(start.published, published, expired, now)
      {
        SweepingExpires(start, done, now);
        SweepingOneMore(start, done, reply[i], now);
        ListsGrow(start, done, reply[i], expired);
        expired := SweepOne(reply[i], now, expired, start.published);
        assert reply[..i + 1] == done + [reply[i]];
        done := done + [reply[i]];
      }
      assert done == reply;
    }

    method SweepOne(id: Uuid, now: int, expired: seq<GateRequest>, ghost before: seq<Event>) returns (longer: seq<GateRequest>)
      requires Named(requests) && Announces(before, published, expired, now)
      modifies this`requests, this`pending, this`published
      ensures State() == if IsPending(old(State()), id) then Expiring(old(State()), id, now) else old(State())
      ensures longer == expired + if IsPending(old(State()), id) then [old(requests)[id].(status := Expired)] else []
      ensures Named(requests) && Announces(before, published, longer, now)
    {
      longer := expired;
      if id in requests && requests[id].status == Pending {
        AnnouncesOneMore(before, published, expired, requests[id].(status := Expired), now);
        longer := expired + [requests[id].(status := Expired)];
        Expire(id, now);
      }
    }

    method Expire(id: Uuid, now: int)
      requires IsPending(State(), id)
      modifies this`requests, this`pending, this`published
      ensures State() == Expiring(old(State()), id, now)
      ensures Published(old(published), published, EventType.GateExpired, old(requests)[id].sessionId,
                        old(requests)[id].taskId, now, map["request_id" := Decimal(id)])
    {
      var request := requests[id].(status := Expired);
      requests := requests[id := request];
      pending := pending - {id};
      published := published + [GateEvent(EventType.GateExpired, request, now, map["request_id" := Decimal(id)])];
    }

    /** `get_pending_requests`, with the reply of the pending set: exactly the PENDING
        requests of the gate asked for, in the order of the reply. */
    method GetPendingRequests(gateType: Option<GateType>, reply: seq<Uuid>) returns (found: seq<GateRequest>)
      requires Valid() && forall id :: id in reply <==> id in pending
      ensures found == Matching(State(), gateType, reply)
      ensures forall r :: r in found <==>
        r.requestId in requests && requests[r.requestId] == r && r.status == Pending
        && (gateType.None? || r.gateType == gateType.value)
    {
      found := Collect(gateType, reply);
      MatchingIsExact(State(), gateType, reply);
    }

    /** The loop over the reply. */
    method Collect(gateType: Option<GateType>, reply: seq<Uuid>) returns (found: seq<GateRequest>)
      ensures found == Matching(State(), gateType, reply)
    {
      found := [];
      for i := 0 to |reply|
        invariant found == Matching(State(), gateType, reply[..i])
      {
        assert reply[..i + 1][..i] == reply[..i];
        if reply[i] in requests {
          var request := requests[reply[i]];
          if gateType.None? || request.gateType == gateType.value {
            found := found + [request];
          }
        }
      }
      assert reply[..|reply|] == reply;
    }
  }

  /** Exactly one event more, with this content. */
  predicate Published(before: seq<Event>, after: seq<Event>, t: EventType, sessionId: string, taskId: string,
                      at: int, metadata: map<string, string>)
  {
    after == before + [Event(t, sessionId, at, None, None, Some(taskId), None, [], "normal", None, None, metadata)]
  }

  /** Exactly one entry more, in the audit stream and in the task's log. */
  predicate Logged(audit: seq<LogEntry>, longer: seq<LogEntry>, taskLog: map<string, seq<LogEntry>>,
                   grown: map<string, seq<LogEntry>>, taskId: string, entry: LogEntry)
  {
    && longer == audit + [entry]
    && grown == taskLog[taskId := (if taskId in taskLog then taskLog[taskId] else []) + [entry]]
  }

  predicate Named(requests: map<Uuid, GateRequest>)
  {
    forall id :: id in requests ==> requests[id].requestId == id
  }

  /** One event per expired request, in the order of the sweep. */
  predicate Announces(before: seq<Event>, after: seq<Event>, expired: seq<GateRequest>, now: int)
  {
    && before <= after && |after| == |before| + |expired|
    && forall i :: 0 <= i < |expired| ==>
         after[|before| + i] == Event(EventType.GateExpired, expired[i].sessionId, now, None, None, Some(expired[i].taskId),
                                      None, [], "normal", None, None, map["request_id" := Decimal(expired[i].requestId)])
  }

  lemma AnnouncesOneMore(before: seq<Event>, after: seq<Event>, expired: seq<GateRequest>, r: GateRequest, now: int)
    requires Announces(before, after, expired, now)
    ensures forall next :: Published(after, next, EventType.GateExpired, r.sessionId, r.taskId, now,
                                     map["request_id" := Decimal(r.requestId)]) ==>
              Announces(before, next, expired + [r], now)
  {
  }

  /** The request that a sweep over the ids returns. */
  ghost predicate SweptAs(d: Gates, ids: seq<Uuid>, r: GateRequest)
  {
    exists id :: id in ids && IsPending(d, id) && r == d.requests[id].(status := Expired)
  }

  lemma SweepingOneMore(d: Gates, ids: seq<Uuid>, id: Uuid, now: int)
    ensures var before := Sweeping(d, ids, now);
      Sweeping(d, ids + [id], now) == if IsPending(before, id) then Expiring(before, id, now) else before
  {
    assert (ids + [id])[..|ids + [id]| - 1] == ids;
  }

  ghost predicate Lists(expired: seq<GateRequest>, d: Gates, ids: seq<Uuid>)
  {
    forall r :: r in expired <==> SweptAs(d, ids, r)
  }

  lemma ListsGrow(d: Gates, ids: seq<Uuid>, id: Uuid, expired: seq<GateRequest>)
    requires Lists(expired, d, ids)
    ensures if IsPending(d, id) && id !in ids
            then Lists(expired + [d.requests[id].(status := Expired)], d, ids + [id])
            else Lists(expired, d, ids + [id])
  {
    forall r ensures SweptAs(d, ids + [id], r)
                     <==> (SweptAs(d, ids, r) || (IsPending(d, id) && r == d.requests[id].(status := Expired)))
    {
      assert id in ids + [id];
      if SweptAs(d, ids, r) {
        var other :| other in ids && IsPending(d, other) && r == d.requests[other].(status := Expired);
        assert other in ids + [id];
      }
    }
  }

  lemma SweptAreLapsed(d: Gates, ids: seq<Uuid>, now: int)
    requires Indexed(d) && forall id :: id in ids <==> id in Due(d, now)
    ensures forall r :: SweptAs(d, ids, r) <==>
      exists id :: id in d.requests && Lapsed(d.requests[id], now) && r == d.requests[id].(status := Expired)
  {
    forall id | id in d.requests ensures Lapsed(d.requests[id], now) <==> IsPending(d, id) && id in ids {
      assert id in d.pending <==> id in WithStatus(d, Pending);
    }
  }

  function Matching(d: Gates, gateType: Option<GateType>, ids: seq<Uuid>): seq<GateRequest>
  {
    if ids == [] then []
    else
      var earlier := Matching(d, gateType, ids[..|ids| - 1]);
      var id := ids[|ids| - 1];
      if id in d.requests && (gateType.None? || d.requests[id].gateType == gateType.value)
      then earlier + [d.requests[id]] else earlier
  }

  lemma {:induction false} MatchingMembers(d: Gates, gateType: Option<GateType>, ids: seq<Uuid>)
    requires Indexed(d)
    ensures forall r :: r in Matching(d, gateType, ids) <==>
      r.requestId in ids && r.requestId in d.requests && d.requests[r.requestId] == r
      && (gateType.None? || r.gateType == gateType.value)
  {
    if ids != [] {
      MatchingMembers(d, gateType, ids[..|ids| - 1]);
      assert ids == ids[..|ids| - 1] + [ids[|ids| - 1]];
    }
  }

  lemma MatchingIsExact(d: Gates, gateType: Option<GateType>, ids: seq<Uuid>)
    requires Indexed(d) && forall id :: id in ids <==> id in d.pending
    ensures forall r :: r in Matching(d, gateType, ids) <==>
      r.requestId in d.requests && d.requests[r.requestId] == r && r.status == Pending
      && (gateType.None? || r.gateType == gateType.value)
  {
    MatchingMembers(d, gateType, ids);
    forall id | id in d.requests ensures id in ids <==> d.requests[id].status == Pending {
      assert id in d.pending <==> id in WithStatus(d, Pending);
    }
  }
}
