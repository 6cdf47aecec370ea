/** The coordination message board (src/infrastructure/coordination/client.py): messages that
    expire one by one, and the inbox sets, the pending set and the trimmed timeline that
    index them without ever hearing of an expiry. Times are in microseconds. */
module Coordination {
  import opened Wrappers

  type Id = nat
  type Kind = nat

  const SECOND: nat := 1_000_000

  datatype Ack = Ack(acknowledger: string, seconds: nat, comment: Option<string>)

  /** A message hash. Its timestamp is cut to whole seconds. */
  datatype Message = Message(
    id: Id, kind: Kind, from: string, to: string, seconds: nat,
    requiresAck: bool, acknowledged: bool, subject: string, description: string, ack: Option<Ack>)

  /** An entry of the timeline. Its score is the time in full. */
  datatype Stamp = Stamp(id: Id, score: nat)

  datatype Board = Board(
    messages: map<Id, Message>,        // the hashes that have not expired
    deadlines: map<Id, nat>,           // when they will
    inboxes: map<string, set<Id>>,
    pending: set<Id>,
    timeline: seq<Stamp>,              // by rising score
    published: seq<Stamp>,             // everything ever published; no code reads it
    clock: nat)

  /** The size of the timeline, and the time to live that every message gets. */
  datatype Limits = Limits(maxSize: nat, ttl: nat)

  datatype Query = Query(
    to: Option<string>, from: Option<string>, kind: Option<Kind>, pendingOnly: bool, since: Option<nat>, limit: nat)

  function InboxOf(b: Board, instance: string): set<Id>
  {
    if instance in b.inboxes then b.inboxes[instance] else {}
  }

  function Newest<T>(s: seq<T>, n: nat): (r: seq<T>)
    ensures |r| <= n && |r| <= |s| && r == s[|s| - |r|..]
  {
    if |s| <= n then s else s[|s| - n..]
  }

  function Without(timeline: seq<Stamp>, id: Id): seq<Stamp>
  {
    if timeline == [] then []
    else
      var last := timeline[|timeline| - 1];
      Without(timeline[..|timeline| - 1], id) + if last.id == id then [] else [last]
  }

  // ---- updates ----

  /** The transaction of `publish_message`, at a time later than all before. */
  function Posted(b: Board, m: Message, score: nat, limits: Limits): Board
  {
    Board(
      b.messages[m.id := m],
      b.deadlines[m.id := score + limits.ttl],
      b.inboxes[m.to := InboxOf(b, m.to) + {m.id}],
      if m.requiresAck then b.pending + {m.id} else b.pending,
      Newest(Without(b.timeline, m.id) + [Stamp(m.id, score)], limits.maxSize),
      b.published + [Stamp(m.id, score)],
      score)
  }

  function Acked(b: Board, id: Id, ack: Ack): Board
    requires id in b.messages
  {
    b.(messages := b.messages[id := b.messages[id].(acknowledged := true, ack := Some(ack))],
       pending := b.pending - {id})
  }

  /** The ids whose time has run out. */
  function Due(b: Board, now: nat): set<Id>
  {
    set id | id in b.deadlines && b.deadlines[id] <= now
  }

  /** Time passes: the store drops every hash whose time has run out. No index is told. */
  function Elapsed(b: Board, now: nat): Board
  {
    b.(messages := b.messages - Due(b, now), deadlines := b.deadlines - Due(b, now), clock := now)
  }

  /** `publish_message` for an id that is not live by then. */
  function Published(b: Board, m: Message, now: nat, limits: Limits): Board
  {
    Posted(Elapsed(b, now), m, now, limits)
  }

  // ---- the invariant ----

  predicate Known(published: seq<Stamp>, id: Id)
  {
    exists i :: 0 <= i < |published| && published[i].id == id
  }

  /** Seen through the live messages, the inboxes and the pending set are exact. */
  ghost predicate Exact(b: Board)
  {
    && (forall id, instance :: id in b.messages ==> (id in InboxOf(b, instance) <==> b.messages[id].to == instance))
    && (forall id :: id in b.messages ==>
          (id in b.pending <==> b.messages[id].requiresAck && !b.messages[id].acknowledged))
  }

  /** Everything in an index has been published, once, and the times rise. */
  ghost predicate Historical(b: Board)
  {
    && (forall id :: id in b.messages ==> b.messages[id].id == id && Known(b.published, id))
    && (forall id, instance :: id in InboxOf(b, instance) ==> Known(b.published, id))
    && (forall id :: id in b.pending ==> Known(b.published, id))
    && Rising(b.published)
    && (forall i :: 0 <= i < |b.published| && b.published[i].id in b.messages ==>
          b.messages[b.published[i].id].seconds == b.published[i].score / SECOND)
  }

  predicate Rising(published: seq<Stamp>)
  {
    forall i, j :: 0 <= i < j < |published| ==>
      published[i].score < published[j].score && published[i].id != published[j].id
  }

  /** A message is live exactly as long as its time to live has not passed. */
  ghost predicate Timed(b: Board, ttl: nat)
  {
    && b.deadlines.Keys == b.messages.Keys && ttl > 0
    && (forall i :: 0 <= i < |b.published| ==>
          && b.published[i].score <= b.clock
          && (b.published[i].id in b.messages <==> b.published[i].score + ttl > b.clock)
          && (b.published[i].id in b.messages ==> b.deadlines[b.published[i].id] == b.published[i].score + ttl))
  }

  /** The timeline is the newest part of what has been published. */
  ghost predicate Indexed(b: Board, limits: Limits)
  {
    Exact(b) && Historical(b) && Timed(b, limits.ttl) && b.timeline == Newest(b.published, limits.maxSize)
  }

  predicate Later(b: Board, score: nat)
  {
    forall i :: 0 <= i < |b.published| ==> b.published[i].score < score
  }

  lemma {:induction false} WithoutUnknown(timeline: seq<Stamp>, id: Id)
    requires forall i :: 0 <= i < |timeline| ==> timeline[i].id != id
    ensures Without(timeline, id) == timeline
  {
    if timeline != [] {
      WithoutUnknown(timeline[..|timeline| - 1], id);
    }
  }

  lemma PostedRising(published: seq<Stamp>, s: Stamp)
    requires Rising(published) && !Known(published, s.id)
    requires forall i :: 0 <= i < |published| ==> published[i].score < s.score
    ensures Rising(published + [s])
  {
  }

  lemma PostedHistorical(b: Board, m: Message, score: nat, limits: Limits)
    requires Historical(b) && !Known(b.published, m.id) && Later(b, score) && m.seconds == score / SECOND
    ensures Historical(Posted(b, m, score, limits))
  {
    var c := Posted(b, m, score, limits);
    PostedRising(b.published, Stamp(m.id, score));
    InboxesAfter(b, m, score, limits);
    forall id ensures Known(c.published, id) <==> Known(b.published, id) || id == m.id {
      KnownOneMore(b.published, Stamp(m.id, score), id);
    }
    PostedDated(b, m, score, limits);
  }

  lemma PostedDated(b: Board, m: Message, score: nat, limits: Limits)
    requires !Known(b.published, m.id) && m.seconds == score / SECOND
    requires forall i :: 0 <= i < |b.published| && b.published[i].id in b.messages ==>
      b.messages[b.published[i].id].seconds == b.published[i].score / SECOND
    ensures var c := Posted(b, m, score, limits);
      forall i :: 0 <= i < |c.published| && c.published[i].id in c.messages ==>
        c.messages[c.published[i].id].seconds == c.published[i].score / SECOND
  {
    var c := Posted(b, m, score, limits);
    assert c.published[|b.published|] == Stamp(m.id, score);
    forall i | 0 <= i < |b.published| ensures c.published[i] == b.published[i] && b.published[i].id != m.id {
    }
  }

  lemma InboxesAfter(b: Board, m: Message, score: nat, limits: Limits)
    ensures forall instance :: InboxOf(Posted(b, m, score, limits), instance) ==
                               InboxOf(b, instance) + if instance == m.to then {m.id} else {}
  {
  }

  lemma PostedTimeline(b: Board, m: Message, score: nat, limits: Limits)
    requires b.timeline == Newest(b.published, limits.maxSize) && !Known(b.published, m.id)
    ensures Posted(b, m, score, limits).timeline == Newest(b.published + [Stamp(m.id, score)], limits.maxSize)
  {
    forall i | 0 <= i < |b.timeline| ensures b.timeline[i].id != m.id {
      assert b.timeline[i] == b.published[|b.published| - |b.timeline| + i];
    }
    WithoutUnknown(b.timeline, m.id);
    NewestAppended(b.published, Stamp(m.id, score), limits.maxSize);
  }

  /** Trimming at every addition leaves what trimming at the end would. */
  lemma NewestAppended<T>(s: seq<T>, x: T, n: nat)
    ensures Newest(Newest(s, n) + [x], n) == Newest(s + [x], n)
  {
    var r, t := Newest(s, n) + [x], s + [x];
    assert t == t[..|t| - |r|] + r;
    assert r == t[|t| - |r|..];
  }

  /** A message published under an id that is not live keeps the indexes exact exactly when
      the id is in no other inbox, and is not pending without need. Ids never published
      before are neither; an id that is used again after its message has expired may be. */
  lemma PostedExactly(b: Board, m: Message, score: nat, limits: Limits)
    requires Exact(b) && m.id !in b.messages && !m.acknowledged
    ensures Exact(Posted(b, m, score, limits)) <==>
      (forall instance :: m.id in InboxOf(b, instance) ==> instance == m.to) && (m.id in b.pending ==> m.requiresAck)
  {
    var c := Posted(b, m, score, limits);
    InboxesAfter(b, m, score, limits);
    assert m.id in c.messages && c.messages[m.id] == m;
    if Exact(c) {
      forall instance | m.id in InboxOf(b, instance) ensures instance == m.to {
        assert m.id in InboxOf(c, instance);
      }
    }
  }

  lemma PostedTimed(b: Board, m: Message, score: nat, limits: Limits)
    requires Historical(b) && Timed(b, limits.ttl) && !Known(b.published, m.id) && b.clock == score
    ensures Timed(Posted(b, m, score, limits), limits.ttl)
  {
    var c := Posted(b, m, score, limits);
    forall i | 0 <= i < |b.published| ensures c.published[i] == b.published[i] && b.published[i].id != m.id {
    }
  }

  lemma PostedIndexed(b: Board, m: Message, score: nat, limits: Limits)
    requires Indexed(b, limits) && !Known(b.published, m.id) && Later(b, score) && b.clock == score
    requires m.seconds == score / SECOND && !m.acknowledged
    ensures Indexed(Posted(b, m, score, limits), limits)
  {
    PostedHistorical(b, m, score, limits);
    PostedTimed(b, m, score, limits);
    PostedTimeline(b, m, score, limits);
    KnownIfLive(b, m.id);
    PostedExactly(b, m, score, limits);
  }

  lemma KnownIfLive(b: Board, id: Id)
    requires Historical(b) && !Known(b.published, id)
    ensures id !in b.messages && id !in b.pending && forall instance :: id !in InboxOf(b, instance)
  {
  }

  lemma AckedIndexed(b: Board, id: Id, ack: Ack, limits: Limits)
    requires Indexed(b, limits) && id in b.messages
    ensures Indexed(Acked(b, id, ack), limits)
  {
    assert forall instance :: InboxOf(Acked(b, id, ack), instance) == InboxOf(b, instance);
  }

  lemma ElapsedTimed(b: Board, now: nat, ttl: nat)
    requires Timed(b, ttl) && b.clock <= now
    ensures Timed(Elapsed(b, now), ttl)
  {
    var c := Elapsed(b, now);
    forall i | 0 <= i < |b.published|
      ensures c.published[i].id in c.messages <==> c.published[i].score + ttl > now {
      assert b.published[i].id in Due(b, now) <==>
             b.published[i].id in b.deadlines && b.deadlines[b.published[i].id] <= now;
    }
  }

  lemma ElapsedIndexed(b: Board, now: nat, limits: Limits)
    requires Indexed(b, limits) && b.clock <= now
    ensures Indexed(Elapsed(b, now), limits)
  {
    ElapsedTimed(b, now, limits.ttl);
    ElapsedExact(b, now);
  }

  lemma ElapsedExact(b: Board, now: nat)
    requires Exact(b) && Historical(b)
    ensures Exact(Elapsed(b, now)) && Historical(Elapsed(b, now))
  {
    assert forall instance :: InboxOf(Elapsed(b, now), instance) == InboxOf(b, instance);
  }

  /** Publishing under a new id keeps everything. */
  lemma PublishedIndexed(b: Board, m: Message, now: nat, limits: Limits)
    requires Indexed(b, limits) && !Known(b.published, m.id) && Later(b, now) && b.clock <= now
    requires m.seconds == now / SECOND && !m.acknowledged
    ensures Indexed(Published(b, m, now, limits), limits)
  {
    ElapsedIndexed(b, now, limits);
    PostedIndexed(Elapsed(b, now), m, now, limits);
  }

  // ---- queries ----

  /** A filter that is given: neither absent nor the empty text. */
  predicate Given(filter: Option<string>)
  {
    filter.GetOr("") != ""
  }

  /** The filters on a message's own fields. */
  predicate Passes(m: Message, q: Query)
  {
    && (Given(q.from) ==> m.from == q.from.value)
    && (q.kind.Some? ==> m.kind == q.kind.value)
    && (q.since.Some? ==> m.seconds * SECOND >= q.since.value)
  }

  /** What a query asks for. */
  predicate Matches(m: Message, q: Query)
  {
    && Passes(m, q)
    && (Given(q.to) ==> m.to == q.to.value)
    && (q.pendingOnly ==> m.requiresAck && !m.acknowledged)
  }

  function AllMatches(b: Board, q: Query): set<Id>
  {
    set id | id in b.messages && Matches(b.messages[id], q)
  }

  predicate ByIndex(q: Query)
  {
    Given(q.to) || q.pendingOnly
  }

  /** The part of the timeline that a query without index looks at. */
  function Window(b: Board, q: Query): seq<Stamp>
  {
    if q.since.Some? then b.timeline else Newest(b.timeline, 2 * q.limit)
  }

  function WindowMatches(b: Board, q: Query): set<Id>
  {
    set i | 0 <= i < |Window(b, q)| && Window(b, q)[i].id in b.messages && Passes(b.messages[Window(b, q)[i].id], q)
      :: Window(b, q)[i].id
  }

  /** The newest `limit` of the given messages, newest first; messages of one second may come
      in any order, and any of them may be cut off. */
  ghost predicate Answers(r: seq<Message>, ids: set<Id>, messages: map<Id, Message>, limit: nat)
  {
    && |r| == (if |ids| < limit then |ids| else limit)
    && (forall i :: 0 <= i < |r| ==> r[i].id in ids && r[i].id in messages && r[i] == messages[r[i].id])
    && (forall i, j :: 0 <= i < j < |r| ==> r[i].id != r[j].id && r[i].seconds >= r[j].seconds)
    && (forall id, i :: id in ids && 0 <= i < |r| && id in messages ==>
          Among(r, id) || r[i].seconds >= messages[id].seconds)
  }

  /** The message is what the caller asked for, filter by filter. */
  predicate Wanted(m: Message, q: Query)
  {
    && (q.to.GetOr("") != "" ==> m.to == q.to.value)
    && (q.from.GetOr("") != "" ==> m.from == q.from.value)
    && (q.kind.Some? ==> m.kind == q.kind.value)
    && (q.pendingOnly ==> m.requiresAck && !m.acknowledged)
    && (q.since.Some? ==> m.seconds * SECOND >= q.since.value)
  }

  lemma AnswersAreWanted(b: Board, q: Query, r: seq<Message>)
    requires Answers(r, if ByIndex(q) then AllMatches(b, q) else WindowMatches(b, q), b.messages, q.limit)
    ensures forall i :: 0 <= i < |r| ==> Wanted(r[i], q)
  {
  }

  predicate Among(r: seq<Message>, id: Id)
  {
    exists i :: 0 <= i < |r| && r[i].id == id
  }

  /** An answer for some messages is one for more of them exactly when it is full, or there
      are no more. */
  lemma WidensExactly(r: seq<Message>, some: set<Id>, all: set<Id>, messages: map<Id, Message>, limit: nat)
    requires Answers(r, some, messages, limit) && some <= all <= messages.Keys
    requires forall id, k :: id in all - some && k in some ==> messages[id].seconds <= messages[k].seconds
    ensures Answers(r, all, messages, limit) <==> |some| >= limit || some == all
  {
    assert |some| <= |all| && (|some| == |all| ==> some == all) by {
      assert all == some + (all - some);
    }
    if |some| >= limit {
      forall id, i | id in all && 0 <= i < |r| ensures Among(r, id) || r[i].seconds >= messages[id].seconds {
        assert r[i].id in some;
      }
    }
  }

  // ---- what the indexes offer a query ----

  /** The ids that `get_messages` fetches: from the inbox, the pending set or both, or from
      the timeline, by score or by rank. */
  function Candidates(b: Board, q: Query): set<Id>
  {
    if Given(q.to) then
      if q.pendingOnly then InboxOf(b, q.to.value) * b.pending else InboxOf(b, q.to.value)
    else if q.pendingOnly then b.pending
    else if q.since.Some? then
      set i | 0 <= i < |b.timeline| && b.timeline[i].score >= q.since.value :: b.timeline[i].id
    else
      set i | 0 <= i < |Newest(b.timeline, 2 * q.limit)| :: Newest(b.timeline, 2 * q.limit)[i].id
  }

  function Passing(ids: set<Id>, messages: map<Id, Message>, q: Query): set<Id>
  {
    set id | id in ids && id in messages && Passes(messages[id], q)
  }

  function Found(b: Board, q: Query): set<Id>
  {
    Passing(Candidates(b, q), b.messages, q)
  }

  /** The window is the newest part of everything published. */
  lemma WindowIsNewest(b: Board, q: Query, limits: Limits)
    requires b.timeline == Newest(b.published, limits.maxSize)
    ensures |Window(b, q)| <= |b.published|
    ensures Window(b, q) == b.published[|b.published| - |Window(b, q)|..]
  {
  }

  /** A message published late enough is found in the window. */
  lemma InWindow(b: Board, q: Query, limits: Limits, i: nat)
    requires b.timeline == Newest(b.published, limits.maxSize) && |b.published| - |Window(b, q)| <= i < |b.published|
    ensures Window(b, q)[i - (|b.published| - |Window(b, q)|)] == b.published[i]
    ensures b.published[i].id in b.messages && Passes(b.messages[b.published[i].id], q) ==>
      b.published[i].id in WindowMatches(b, q)
  {
    WindowIsNewest(b, q, limits);
  }

  lemma WindowPosition(b: Board, q: Query, limits: Limits, id: Id) returns (i: nat)
    requires b.timeline == Newest(b.published, limits.maxSize) && id in WindowMatches(b, q)
    ensures |b.published| - |Window(b, q)| <= i < |b.published| && b.published[i].id == id
  {
    WindowIsNewest(b, q, limits);
    var j :| 0 <= j < |Window(b, q)| && Window(b, q)[j].id == id;
    i := |b.published| - |Window(b, q)| + j;
  }

  lemma PublishedPosition(b: Board, id: Id) returns (i: nat)
    requires Historical(b) && id in b.messages
    ensures i < |b.published| && b.published[i].id == id && b.messages[id].seconds == b.published[i].score / SECOND
  {
    i :| 0 <= i < |b.published| && b.published[i].id == id;
  }

  /** An index answers its query completely: with an inbox or the pending set, the messages
      found are those that a scan of all live messages would find; otherwise they are
      those of the window, where the score filter loses nothing the timestamp filter keeps. */
  lemma IndexesAreSound(b: Board, q: Query, limits: Limits)
    requires Indexed(b, limits)
    ensures Found(b, q) == if ByIndex(q) then AllMatches(b, q) else WindowMatches(b, q)
  {
    if ByIndex(q) {
      IndexIsExact(b, q);
    } else {
      forall id | id in WindowMatches(b, q) ensures id in Candidates(b, q) {
        if q.since.Some? {
          ScoreKeeps(b, q, limits, id);
        }
      }
      assert Found(b, q) == WindowMatches(b, q) by {
        WindowFound(b, q);
      }
    }
  }

  lemma IndexIsExact(b: Board, q: Query)
    requires Exact(b) && ByIndex(q)
    ensures Found(b, q) == AllMatches(b, q)
  {
    forall id | id in b.messages ensures id in Found(b, q) <==> id in AllMatches(b, q) {
    }
  }

  lemma WindowFound(b: Board, q: Query)
    requires !ByIndex(q) && forall id :: id in WindowMatches(b, q) ==> id in Candidates(b, q)
    ensures Found(b, q) == WindowMatches(b, q)
  {
    forall id | id in Candidates(b, q) ensures exists i :: 0 <= i < |Window(b, q)| && Window(b, q)[i].id == id {
      var w := Window(b, q);
      var i :| 0 <= i < |w| && w[i].id == id && (q.since.Some? ==> w[i].score >= q.since.value);
      assert Window(b, q)[i].id == id;
    }
  }

  lemma CutIsBelow(time: nat)
    ensures time / SECOND * SECOND <= time
  {
  }

  lemma ScoreKeeps(b: Board, q: Query, limits: Limits, id: Id)
    requires b.timeline == Newest(b.published, limits.maxSize) && Historical(b)
    requires !ByIndex(q) && q.since.Some? && id in WindowMatches(b, q)
    ensures id in Candidates(b, q)
  {
    var i := WindowPosition(b, q, limits, id);
    InWindow(b, q, limits, i);
    assert b.messages[id].seconds == b.published[i].score / SECOND;
    CutIsBelow(b.published[i].score);
    InCandidates(b, q, i - (|b.published| - |Window(b, q)|));
  }

  lemma InCandidates(b: Board, q: Query, j: nat)
    requires !ByIndex(q) && q.since.Some? && j < |b.timeline| && b.timeline[j].score >= q.since.value
    ensures b.timeline[j].id in Candidates(b, q)
  {
  }

  /** Whole-second times are told apart by the cut timestamps as by the scores, and no other
      times are. */
  lemma CutTimesAgreeExactly(since: nat)
    ensures (forall t: nat :: t / SECOND * SECOND >= since <==> t >= since) <==> since % SECOND == 0
  {
    if since % SECOND != 0 {
      assert since / SECOND * SECOND < since;
    } else {
      forall t: nat ensures t / SECOND * SECOND >= since <==> t >= since {
      }
    }
  }

  // ---- when the window is enough ----

  /** Matches outside the window are older than those inside. */
  lemma OutsideIsOlder(b: Board, q: Query, limits: Limits, id: Id, k: Id)
    requires b.timeline == Newest(b.published, limits.maxSize) && Historical(b) && !ByIndex(q)
    requires id in AllMatches(b, q) - WindowMatches(b, q) && k in WindowMatches(b, q)
    ensures b.messages[id].seconds <= b.messages[k].seconds
  {
    var i := PublishedPosition(b, id);
    var j := WindowPosition(b, q, limits, k);
    if i >= |b.published| - |Window(b, q)| {
      InWindow(b, q, limits, i);
    }
    assert i < j;
  }

  lemma WindowWithinAll(b: Board, q: Query, limits: Limits)
    requires b.timeline == Newest(b.published, limits.maxSize) && Historical(b) && !ByIndex(q)
    ensures WindowMatches(b, q) <= AllMatches(b, q) <= b.messages.Keys
  {
  }

  /** A query over the timeline answers for all live messages exactly when the window holds
      enough matches to fill the answer, or holds them all. */
  lemma WindowIsEnoughExactly(b: Board, q: Query, limits: Limits, r: seq<Message>)
    requires Indexed(b, limits) && !ByIndex(q) && Answers(r, WindowMatches(b, q), b.messages, q.limit)
    ensures Answers(r, AllMatches(b, q), b.messages, q.limit)
            <==> |WindowMatches(b, q)| >= q.limit || WindowMatches(b, q) == AllMatches(b, q)
  {
    WindowWithinAll(b, q, limits);
    forall id, k | id in AllMatches(b, q) - WindowMatches(b, q) && k in WindowMatches(b, q)
      ensures b.messages[id].seconds <= b.messages[k].seconds {
      OutsideIsOlder(b, q, limits, id, k);
    }
    WidensExactly(r, WindowMatches(b, q), AllMatches(b, q), b.messages, q.limit);
  }

  /** Messages expire in the order in which they were published. */
  ghost predicate ExpiresInOrder(b: Board)
  {
    forall i, j :: 0 <= i < j < |b.published| && b.published[i].id in b.messages ==> b.published[j].id in b.messages
  }

  /** They do, as all get the same time to live when they are published. */
  lemma SameTimeToLive(b: Board, ttl: nat)
    requires Timed(b, ttl) && Rising(b.published)
    ensures ExpiresInOrder(b)
  {
  }

  predicate Unfiltered(q: Query)
  {
    !ByIndex(q) && !Given(q.from) && q.kind.None? && q.since.None?
  }

  /** Fetching twice the limit is enough for a query without filters, as long as the timeline
      holds the limit: expired ids in the window mean that nothing older is live. */
  lemma UnfilteredIsComplete(b: Board, q: Query, limits: Limits, r: seq<Message>)
    requires Indexed(b, limits) && Unfiltered(q) && 1 <= q.limit <= limits.maxSize
    requires Answers(r, WindowMatches(b, q), b.messages, q.limit)
    ensures Answers(r, AllMatches(b, q), b.messages, q.limit)
  {
    WindowIsEnoughExactly(b, q, limits, r);
    SameTimeToLive(b, limits.ttl);
    WindowFillsOrHoldsAll(b, q, limits);
  }

  lemma WindowFillsOrHoldsAll(b: Board, q: Query, limits: Limits)
    requires b.timeline == Newest(b.published, limits.maxSize) && Historical(b) && ExpiresInOrder(b)
    requires Unfiltered(q) && 1 <= q.limit <= limits.maxSize
    ensures |WindowMatches(b, q)| >= q.limit || WindowMatches(b, q) == AllMatches(b, q)
  {
    var w := Window(b, q);
    WindowIsNewest(b, q, limits);
    if forall i :: 0 <= i < |w| ==> w[i].id in b.messages {
      if |w| < q.limit {
        ShortWindow(b, q, limits);
        NothingBeforeWindow(b, q, limits, 0);
      } else {
        WindowCounts(b, q, w);
      }
    } else {
      var i :| 0 <= i < |w| && w[i].id !in b.messages;
      OlderAreGone(b, w, i);
      NothingBeforeWindow(b, q, limits, |b.published| - |w| + i);
    }
  }

  lemma OlderAreGone(b: Board, w: seq<Stamp>, i: nat)
    requires ExpiresInOrder(b) && |w| <= |b.published| && w == b.published[|b.published| - |w|..]
    requires i < |w| && w[i].id !in b.messages
    ensures forall k :: 0 <= k < |b.published| - |w| + i ==> b.published[k].id !in b.messages
  {
    assert b.published[|b.published| - |w| + i] == w[i];
  }

  lemma ShortWindow(b: Board, q: Query, limits: Limits)
    requires b.timeline == Newest(b.published, limits.maxSize) && q.since.None? && |Window(b, q)| < q.limit <= limits.maxSize
    ensures |Window(b, q)| == |b.published|
  {
  }

  lemma NothingBeforeWindow(b: Board, q: Query, limits: Limits, start: nat)
    requires b.timeline == Newest(b.published, limits.maxSize) && Historical(b) && Unfiltered(q) && |b.published| - |Window(b, q)| <= start <= |b.published|
    requires forall i :: 0 <= i < start ==> b.published[i].id !in b.messages
    ensures WindowMatches(b, q) == AllMatches(b, q)
  {
    WindowWithinAll(b, q, limits);
    forall id | id in AllMatches(b, q) ensures id in WindowMatches(b, q) {
      var i := PublishedPosition(b, id);
      InWindow(b, q, limits, i);
    }
  }

  function IdsOf(stamps: seq<Stamp>): set<Id>
  {
    set i | 0 <= i < |stamps| :: stamps[i].id
  }

  lemma {:induction false} DistinctCount(stamps: seq<Stamp>)
    requires forall i, j :: 0 <= i < j < |stamps| ==> stamps[i].id != stamps[j].id
    ensures |IdsOf(stamps)| == |stamps|
  {
    if stamps != [] {
      var front, last := stamps[..|stamps| - 1], stamps[|stamps| - 1];
      DistinctCount(front);
      forall id ensures id in IdsOf(stamps) <==> id in IdsOf(front) || id == last.id {
        if id in IdsOf(front) {
          var i :| 0 <= i < |front| && front[i].id == id;
          assert stamps[i].id == id;
        }
      }
      assert IdsOf(stamps) == IdsOf(front) + {last.id};
      assert last.id !in IdsOf(front);
    }
  }

  /** A window without expired ids has as many matches as it has entries. */
  lemma WindowCounts(b: Board, q: Query, w: seq<Stamp>)
    requires w == Window(b, q) && |w| <= |b.published| && w == b.published[|b.published| - |w|..]
    requires Rising(b.published) && Unfiltered(q) && forall i :: 0 <= i < |w| ==> w[i].id in b.messages
    ensures |WindowMatches(b, q)| == |w|
  {
    NewestDistinct(b.published, w);
    DistinctCount(w);
    AllOfWindow(b, q, w);
  }

  lemma NewestDistinct(published: seq<Stamp>, w: seq<Stamp>)
    requires Rising(published) && |w| <= |published| && w == published[|published| - |w|..]
    ensures forall i, j :: 0 <= i < j < |w| ==> w[i].id != w[j].id
  {
    var first := |published| - |w|;
    forall i, j | 0 <= i < j < |w| ensures w[i].id != w[j].id {
      assert w[i] == published[first + i] && w[j] == published[first + j];
    }
  }

  lemma AllOfWindow(b: Board, q: Query, w: seq<Stamp>)
    requires Unfiltered(q) && w == Window(b, q) && forall i :: 0 <= i < |w| ==> w[i].id in b.messages
    ensures WindowMatches(b, q) == IdsOf(w)
  {
    assert forall m: Message :: Passes(m, q);
  }

  lemma NotEarlier(b: Board, i: nat, j: nat)
    requires Rising(b.published) && i < |b.published| && j < |b.published|
    requires b.published[i].score >= b.published[j].score
    ensures i >= j
  {
  }

  /** With any filters, a board that has seen no more than the window holds is answered for
      completely, and so is a query since a time that the timeline still reaches. */
  lemma ShortHistoryIsComplete(b: Board, q: Query, limits: Limits)
    requires b.timeline == Newest(b.published, limits.maxSize) && Historical(b) && !ByIndex(q)
    requires || |b.published| <= |Window(b, q)|
             || (q.since.Some? && b.timeline != [] && b.timeline[0].score <= q.since.value)
    ensures WindowMatches(b, q) == AllMatches(b, q)
  {
    WindowWithinAll(b, q, limits);
    if |b.published| <= |Window(b, q)| {
      AllAreFound(b, q, limits);
    } else {
      ReachedAreFound(b, q, limits);
    }
  }

  lemma AllAreFound(b: Board, q: Query, limits: Limits)
    requires b.timeline == Newest(b.published, limits.maxSize) && Historical(b) && !ByIndex(q)
    requires |b.published| <= |Window(b, q)|
    ensures AllMatches(b, q) <= WindowMatches(b, q)
  {
    WindowIsNewest(b, q, limits);
    forall id | id in AllMatches(b, q) ensures id in WindowMatches(b, q) {
      var i := PublishedPosition(b, id);
      InWindow(b, q, limits, i);
    }
  }

  lemma ReachedAreFound(b: Board, q: Query, limits: Limits)
    requires b.timeline == Newest(b.published, limits.maxSize) && Historical(b) && !ByIndex(q)
    requires q.since.Some? && b.timeline != [] && b.timeline[0].score <= q.since.value
    ensures AllMatches(b, q) <= WindowMatches(b, q)
  {
    forall id | id in AllMatches(b, q) ensures id in WindowMatches(b, q) {
      ReachedIsFound(b, q, limits, id);
    }
  }

  lemma ReachedIsFound(b: Board, q: Query, limits: Limits, id: Id)
    requires b.timeline == Newest(b.published, limits.maxSize) && Historical(b) && !ByIndex(q)
    requires q.since.Some? && b.timeline != [] && b.timeline[0].score <= q.since.value && id in AllMatches(b, q)
    ensures id in WindowMatches(b, q)
  {
    var i := PublishedPosition(b, id);
    CutIsBelow(b.published[i].score);
    assert q.since.value <= b.published[i].score;
    ReachedByTimeline(b, q, limits, i);
    InWindow(b, q, limits, i);
  }

  lemma ReachedByTimeline(b: Board, q: Query, limits: Limits, i: nat)
    requires b.timeline == Newest(b.published, limits.maxSize) && Rising(b.published) && i < |b.published|
    requires q.since.Some? && b.timeline != [] && b.timeline[0].score <= b.published[i].score
    ensures i >= |b.published| - |Window(b, q)|
  {
    assert b.timeline[0] == b.published[|b.published| - |b.timeline|];
    NotEarlier(b, i, |b.published| - |b.timeline|);
  }

  // ---- where the assumptions end ----

  /** An id used again after its message has expired, for another recipient: the first
      recipient's inbox then holds a message that is not for it. */
  lemma ReusedIdLeaks(b: Board, first: Message, second: Message, t1: nat, t2: nat, limits: Limits)
    requires Exact(b) && first.id !in b.messages && second.id == first.id && second.to != first.to
    requires !second.acknowledged && t1 + limits.ttl <= t2
    ensures first.id !in Elapsed(Posted(b, first, t1, limits), t2).messages
    ensures first.id in InboxOf(Published(Posted(b, first, t1, limits), second, t2, limits), first.to)
    ensures !Exact(Published(Posted(b, first, t1, limits), second, t2, limits))
  {
    InboxesAfter(b, first, t1, limits);
    var e := Elapsed(Posted(b, first, t1, limits), t2);
    assert first.id in InboxOf(e, first.to);
    InboxesAfter(e, second, t2, limits);
    var c := Posted(e, second, t2, limits);
    assert second.id in c.messages && c.messages[second.id].to == second.to;
  }

  /** With a filter, twice the limit is not enough: two messages from others after one from
      the sender, which is still live, and a query for one message from the sender finds
      none. */
  lemma FilteredQueryMisses(start: Board, a: Id, b: Message, c: Message, t1: nat, t2: nat, limits: Limits)
    returns (board: Board, q: Query)
    requires Indexed(start, limits) && limits.maxSize >= 2 && a in start.messages && start.messages[a].from != ""
    requires b.from != start.messages[a].from && c.from != start.messages[a].from
    requires !Known(start.published, b.id) && !Known(start.published, c.id) && b.id != c.id
    requires Later(start, t1) && start.clock <= t1 < t2 && b.seconds == t1 / SECOND && c.seconds == t2 / SECOND
    requires a in start.deadlines && t2 < start.deadlines[a] && t2 < t1 + limits.ttl
    requires !b.acknowledged && !c.acknowledged
    ensures board == Published(Published(start, b, t1, limits), c, t2, limits) && Indexed(board, limits)
    ensures !ByIndex(q) && q.since.None? && q.limit == 1
    ensures a in AllMatches(board, q) && WindowMatches(board, q) == {}
  {
    board := Published(Published(start, b, t1, limits), c, t2, limits);
    PublishedTwice(start, b, c, t1, t2, limits);
    q := Query(None, Some(start.messages[a].from), None, false, None, 1);
    DifferentIds(start, a, b.id, c.id);
    BothPublished(start, b, c, t1, t2, limits, a);
    StillMatches(board, a, q);
    NoneFrom(board, q, Stamp(b.id, t1), Stamp(c.id, t2));
  }

  lemma DifferentIds(b: Board, a: Id, x: Id, y: Id)
    requires Historical(b) && a in b.messages && !Known(b.published, x) && !Known(b.published, y)
    ensures a != x && a != y
  {
  }

  lemma StillMatches(b: Board, a: Id, q: Query)
    requires a in b.messages && q == Query(None, Some(b.messages[a].from), None, false, None, 1)
    ensures a in AllMatches(b, q)
  {
  }

  /** The two newest stamps, and the messages that are live beside them. */
  lemma BothPublished(start: Board, b: Message, c: Message, t1: nat, t2: nat, limits: Limits, a: Id)
    requires limits.maxSize >= 2 && a in start.messages && a in start.deadlines && t1 < t2 < start.deadlines[a]
    requires t2 < t1 + limits.ttl && a != b.id && a != c.id && b.id != c.id
    ensures var board := Published(Published(start, b, t1, limits), c, t2, limits);
      && a in board.messages && board.messages[a] == start.messages[a]
      && b.id in board.messages && board.messages[b.id] == b
      && c.id in board.messages && board.messages[c.id] == c
      && board.published == start.published + [Stamp(b.id, t1)] + [Stamp(c.id, t2)]
      && (board.timeline == Newest(board.published, limits.maxSize) ==>
            Newest(board.timeline, 2) == [Stamp(b.id, t1), Stamp(c.id, t2)])
  {
    var middle := Published(start, b, t1, limits);
    TwoNewest(start.published, Stamp(b.id, t1), Stamp(c.id, t2), limits.maxSize);
    PublishedMessages(start, b, t1, limits, a);
    PublishedMessages(middle, c, t2, limits, a);
    PublishedMessages(middle, c, t2, limits, b.id);
  }

  lemma PublishedTwice(start: Board, b: Message, c: Message, t1: nat, t2: nat, limits: Limits)
    requires Indexed(start, limits) && !Known(start.published, b.id) && !Known(start.published, c.id) && b.id != c.id
    requires Later(start, t1) && start.clock <= t1 < t2 && b.seconds == t1 / SECOND && c.seconds == t2 / SECOND
    requires !b.acknowledged && !c.acknowledged
    ensures Indexed(Published(Published(start, b, t1, limits), c, t2, limits), limits)
  {
    var middle := Published(start, b, t1, limits);
    PublishedIndexed(start, b, t1, limits);
    KnownOneMore(start.published, Stamp(b.id, t1), c.id);
    PublishedIndexed(middle, c, t2, limits);
  }

  lemma KnownOneMore(published: seq<Stamp>, s: Stamp, id: Id)
    ensures Known(published + [s], id) <==> Known(published, id) || id == s.id
  {
    var after := published + [s];
    assert after[|published|] == s;
    if i :| 0 <= i < |published| && published[i].id == id {
      assert after[i].id == id;
    }
  }

  lemma PublishedMessages(b: Board, m: Message, t: nat, limits: Limits, other: Id)
    requires other in b.messages && other in b.deadlines && t < b.deadlines[other] && other != m.id
    ensures var c := Published(b, m, t, limits);
      && m.id in c.messages && c.messages[m.id] == m && m.id in c.deadlines && c.deadlines[m.id] == t + limits.ttl
      && other in c.messages && c.messages[other] == b.messages[other]
      && other in c.deadlines && c.deadlines[other] == b.deadlines[other]
      && c.published == b.published + [Stamp(m.id, t)]
  {
  }

  lemma NoneFrom(b: Board, q: Query, x: Stamp, y: Stamp)
    requires Window(b, q) == [x, y] && Given(q.from)
    requires x.id in b.messages && b.messages[x.id].from != q.from.value
    requires y.id in b.messages && b.messages[y.id].from != q.from.value
    ensures WindowMatches(b, q) == {}
  {
    forall i | 0 <= i < |Window(b, q)| ensures !Passes(b.messages[Window(b, q)[i].id], q) {
      assert Window(b, q)[i] == x || Window(b, q)[i] == y;
    }
  }

  lemma TwoNewest(s: seq<Stamp>, x: Stamp, y: Stamp, n: nat)
    requires n >= 2
    ensures Newest(Newest(s + [x] + [y], n), 2) == [x, y]
  {
  }

  // ---- the client ----

  /** A list of exactly these messages, each once. */
  ghost predicate Lists(s: seq<Message>, ids: set<Id>, messages: map<Id, Message>)
  {
    && |s| == |ids|
    && (forall i :: 0 <= i < |s| ==> s[i].id in ids && s[i].id in messages && s[i] == messages[s[i].id])
    && (forall i, j :: 0 <= i < j < |s| ==> s[i].id != s[j].id)
    && (forall id :: id in ids ==> Among(s, id))
  }

  predicate NewestFirst(s: seq<Message>)
  {
    forall i, j :: 0 <= i < j < |s| ==> s[i].seconds >= s[j].seconds
  }

  lemma ListsOneMore(s: seq<Message>, ids: set<Id>, messages: map<Id, Message>, k: nat, m: Message)
    requires Lists(s, ids, messages) && k <= |s| && m.id !in ids && m.id in messages && m == messages[m.id]
    ensures Lists(s[..k] + [m] + s[k..], ids + {m.id}, messages)
  {
    var t := s[..k] + [m] + s[k..];
    assert t[k] == m;
    forall id | id in ids ensures Among(t, id) {
      var i :| 0 <= i < |s| && s[i].id == id;
      assert t[if i < k then i else i + 1] == s[i];
    }
    InsertedDistinct(s, k, m);
  }

  lemma InsertedDistinct(s: seq<Message>, k: nat, m: Message)
    requires k <= |s|
    requires forall i, j :: 0 <= i < j < |s| ==> s[i].id != s[j].id
    requires forall i :: 0 <= i < |s| ==> s[i].id != m.id
    ensures forall i, j :: 0 <= i < j < |s| + 1 ==> (s[..k] + [m] + s[k..])[i].id != (s[..k] + [m] + s[k..])[j].id
  {
    var t := s[..k] + [m] + s[k..];
    forall i, j | 0 <= i < j < |t| ensures t[i].id != t[j].id {
      var p, q := if i < k then i else i - 1, if j < k then j else j - 1;
      assert i != k ==> t[i] == s[p];
      assert j != k ==> t[j] == s[q];
    }
  }

  lemma FirstOfListAnswer(s: seq<Message>, ids: set<Id>, messages: map<Id, Message>, limit: nat)
    requires Lists(s, ids, messages) && NewestFirst(s)
    ensures Answers(if |s| < limit then s else s[..limit], ids, messages, limit)
  {
    var r := if |s| < limit then s else s[..limit];
    forall id, i | id in ids && 0 <= i < |r| && id in messages
      ensures Among(r, id) || r[i].seconds >= messages[id].seconds {
      var j :| 0 <= j < |s| && s[j].id == id;
      if j < |r| {
        assert r[j].id == id;
      } else {
        assert s[i].seconds >= s[j].seconds;
      }
    }
  }

  class CoordinationClient {
    var messages: map<Id, Message>
    var deadlines: map<Id, nat>
    var inboxes: map<string, set<Id>>
    var pending: set<Id>
    var timeline: seq<Stamp>
    var clock: nat
    const limits: Limits
    ghost var published: seq<Stamp>

    constructor (limits: Limits)
      requires limits.ttl > 0
      ensures Valid() && this.limits == limits && State() == Board(map[], map[], map[], {}, [], [], 0)
    {
      this.limits := limits;
      messages, deadlines, inboxes, pending, timeline, published, clock := map[], map[], map[], {}, [], [], 0;
    }

    ghost function State(): Board
      reads this
    {
      Board(messages, deadlines, inboxes, pending, timeline, published, clock)
    }

    ghost predicate Valid()
      reads this
    {
      Indexed(State(), limits)
    }

    /** The store drops the hashes whose time has run out. */
    method PassTime(now: nat)
      requires Valid() && clock <= now
      modifies this`messages, this`deadlines, this`clock
      ensures Valid() && State() == Elapsed(old(State()), now)
    {
      ElapsedIndexed(State(), now, limits);
      var due := set id | id in deadlines && deadlines[id] <= now;
      messages := messages - due;
      deadlines := deadlines - due;
      clock := now;
    }

    /** `publish_message`: an error when the id is that of a live message. */
    method PublishMessage(id: Id, kind: Kind, from: string, to: string, requiresAck: bool, subject: string,
                          description: string, now: nat) returns (r: Result<Message, Id>)
      requires Valid() && clock <= now && Later(State(), now)
      requires Known(published, id) ==> id in messages && deadlines[id] > now
      modifies this
      ensures Valid()
      ensures r == if id in Elapsed(old(State()), now).messages then Err(id) else
        Ok(Message(id, kind, from, to, now / SECOND, requiresAck, false, subject, description, None))
      ensures State() == if r.Err? then Elapsed(old(State()), now) else Published(old(State()), r.value, now, limits)
      ensures r.Ok? ==> messages == Elapsed(old(State()), now).messages[id := r.value] && deadlines[id] == now + limits.ttl
    {
      PassTime(now);
      if id in messages {
        return Err(id);
      }
      var m := Message(id, kind, from, to, now / SECOND, requiresAck, false, subject, description, None);
      PostedIndexed(State(), m, now, limits);
      Post(m, now);
      r := Ok(m);
    }

    /** The transaction. */
    method Post(m: Message, now: nat)
      modifies this
      ensures State() == Posted(old(State()), m, now, limits)
    {
      messages := messages[m.id := m];
      deadlines := deadlines[m.id := now + limits.ttl];
      timeline := Without(timeline, m.id) + [Stamp(m.id, now)];
      timeline := Newest(timeline, limits.maxSize);
      inboxes := inboxes[m.to := (if m.to in inboxes then inboxes[m.to] else {}) + {m.id}];
      if m.requiresAck {
        pending := pending + {m.id};
      }
      published := published + [Stamp(m.id, now)];
      clock := now;
    }

    /** `acknowledge_message`: false for an unknown id; a second acknowledgement changes
        nothing. */
    method AcknowledgeMessage(id: Id, acknowledger: string, now: nat, comment: Option<string>) returns (found: bool)
      requires Valid() && clock <= now
      modifies this
      ensures Valid() && found == (id in Elapsed(old(State()), now).messages)
      ensures State() == var b := Elapsed(old(State()), now);
        if !found || b.messages[id].acknowledged then b
        else Acked(b, id, Ack(acknowledger, now / SECOND, if Given(comment) then comment else None))
      ensures found && !Elapsed(old(State()), now).messages[id].acknowledged ==>
        var m := Elapsed(old(State()), now).messages[id];
        var ack := Ack(acknowledger, now / SECOND, if comment.GetOr("") == "" then None else comment);
        && messages == Elapsed(old(State()), now).messages[
             id := Message(id, m.kind, m.from, m.to, m.seconds, m.requiresAck, true, m.subject, m.description, Some(ack))]
        && pending == old(pending) - {id} && inboxes == old(inboxes) && timeline == old(timeline)
    {
      PassTime(now);
      if id !in messages {
        return false;
      }
      if messages[id].acknowledged {
        return true;
      }
      var ack := Ack(acknowledger, now / SECOND, if Given(comment) then comment else None);
      AckedIndexed(State(), id, ack, limits);
      Acknowledge(id, ack);
      found := true;
    }

    /** The update as one transaction. */
    method Acknowledge(id: Id, ack: Ack)
      requires id in messages
      modifies this`messages, this`pending
      ensures State() == Acked(old(State()), id, ack)
    {
      messages := messages[id := messages[id].(acknowledged := true, ack := Some(ack))];
      pending := pending - {id};
    }

    /** `get_messages`: the newest matches, among all live messages when an index answers,
        among those of the timeline's window otherwise. */
    method GetMessages(q: Query) returns (r: seq<Message>)
      requires Valid() && q.limit >= 1
      ensures ByIndex(q) ==> Answers(r, AllMatches(State(), q), messages, q.limit)
      ensures !ByIndex(q) ==> Answers(r, WindowMatches(State(), q), messages, q.limit)
      ensures Unfiltered(q) && q.limit <= limits.maxSize ==> Answers(r, AllMatches(State(), q), messages, q.limit)
      ensures forall i :: 0 <= i < |r| ==> Wanted(r[i], q)
    {
      var ids := CandidateIds(q);
      IndexesAreSound(State(), q, limits);
      var found := Fetch(ids, q);
      found := SortNewestFirst(found, Found(State(), q));
      FirstOfListAnswer(found, Found(State(), q), messages, q.limit);
      r := if |found| < q.limit then found else found[..q.limit];
      AnswersAreWanted(State(), q, r);
      if Unfiltered(q) && q.limit <= limits.maxSize {
        UnfilteredIsComplete(State(), q, limits, r);
      }
    }

    method CandidateIds(q: Query) returns (ids: set<Id>)
      ensures ids == Candidates(State(), q)
    {
      var narrowed := None;
      if Given(q.to) {
        narrowed := Some(if q.to.value in inboxes then inboxes[q.to.value] else {});
      }
      if q.pendingOnly {
        narrowed := Some(if narrowed.Some? then narrowed.value * pending else pending);
      }
      if narrowed.Some? {
        return narrowed.value;
      }
      if q.since.Some? {
        ids := set i | 0 <= i < |timeline| && timeline[i].score >= q.since.value :: timeline[i].id;
      } else {
        var newest := Newest(timeline, 2 * q.limit);
        ids := set i | 0 <= i < |newest| :: newest[i].id;
      }
    }

    /** The loop over the candidates, in any order. */
    method Fetch(ids: set<Id>, q: Query) returns (found: seq<Message>)
      requires forall id :: id in messages ==> messages[id].id == id
      ensures Lists(found, Passing(ids, messages, q), messages)
    {
      found := [];
      var rest := ids;
      while rest != {}
        invariant rest <= ids
        invariant Lists(found, Passing(ids - rest, messages, q), messages)
        decreases |rest|
      {
        var id :| id in rest;
        ghost var done := Passing(ids - rest, messages, q);
        rest := rest - {id};
        ghost var now := Passing(ids - rest, messages, q);
        if id in messages && Passes(messages[id], q) {
          ListsOneMore(found, done, messages, |found|, messages[id]);
          assert found + [messages[id]] == found[..|found|] + [messages[id]] + found[|found|..];
          assert now == done + {id};
          found := found + [messages[id]];
        } else {
          assert now == done;
        }
      }
      assert ids - rest == ids;
    }

    /** A stable sort by falling timestamp. */
    method SortNewestFirst(s: seq<Message>, ghost ids: set<Id>) returns (t: seq<Message>)
      requires Lists(s, ids, messages)
      ensures Lists(t, ids, messages) && NewestFirst(t)
    {
      t := [];
      ghost var done := {};
      for i := 0 to |s|
        invariant forall id :: id in done <==> exists k :: 0 <= k < i && s[k].id == id
        invariant Lists(t, done, messages) && NewestFirst(t)
      {
        t := InsertByTime(t, s[i], done);
        done := done + {s[i].id};
      }
      assert done == ids;
    }

    /** After everything that is not older. */
    method InsertByTime(s: seq<Message>, m: Message, ghost ids: set<Id>) returns (t: seq<Message>)
      requires Lists(s, ids, messages) && NewestFirst(s) && m.id !in ids && m.id in messages && m == messages[m.id]
      ensures Lists(t, ids + {m.id}, messages) && NewestFirst(t)
    {
      var k: nat := |s|;
      while k > 0 && s[k - 1].seconds < m.seconds
        invariant k <= |s| && forall j :: k <= j < |s| ==> s[j].seconds < m.seconds
      {
        k := k - 1;
      }
      ListsOneMore(s, ids, messages, k, m);
      InsertedNewestFirst(s, k, m);
      t := s[..k] + [m] + s[k..];
    }
  }

  lemma InsertedNewestFirst(s: seq<Message>, k: nat, m: Message)
    requires k <= |s| && NewestFirst(s)
    requires k > 0 ==> s[k - 1].seconds >= m.seconds
    requires forall j :: k <= j < |s| ==> s[j].seconds < m.seconds
    ensures NewestFirst(s[..k] + [m] + s[k..])
  {
    var t := s[..k] + [m] + s[k..];
    forall i, j | 0 <= i < j < |t| ensures t[i].seconds >= t[j].seconds {
      var p, q := if i < k then i else i - 1, if j < k then j else j - 1;
      assert i != k ==> t[i] == s[p];
      assert j != k ==> t[j] == s[q];
      assert i < k ==> s[i].seconds >= s[k - 1].seconds;
    }
  }
}
