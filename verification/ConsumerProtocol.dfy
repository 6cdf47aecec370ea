/** The event-consumer protocol (src/infrastructure/consumer_group.py and the stream
    commands of src/infrastructure/redis_streams.py) as a state machine.

    One consumer group reads one stream. Any number of consumer slots run side by
    side; a slot's process may die at any await and be started again. Every await of
    `_handle_event` and of `process_pending` is one action, so a run of the machine is
    one interleaving of all processes. */
module ConsumerProtocol {
  import opened Wrappers
  import opened Events

  type Id = nat
  type Key = string

  /** What a handler call comes to. An exception in a handler leaves the entry pending,
      like a retry. */
  datatype Outcome = Success | Retry | PermanentFailure

  datatype Path = Live | Recovery

  /** The await a process is at, with the entry it is working on. */
  datatype Await =
    | Checking(id: Id)                  // tracker.is_processed
    | Handling(id: Id)                  // handler.handle
    | Marking(id: Id)                   // tracker.mark_processed
    | Acking(id: Id, handled: bool)     // acknowledge_event, after the handler or instead of it

  datatype Slot =
    | Down                                             // no process
    | Idle                                             // between batches
    | Claiming(stale: set<Id>)                         // XPENDING answered, XCLAIM not yet sent
    | Busy(path: Path, rest: seq<Id>, at: Await)

  datatype World = World(
    handles: set<EventType>,    // what the handler accepts
    stream: seq<Event>,         // entry ids are positions
    delivered: nat,             // entries handed to the group so far
    pending: set<Id>,           // the group's pending-entries list
    acked: set<Id>,
    marks: map<Key, Id>,        // idempotency markers
    slots: seq<Slot>,
    // history, which no process reads
    succeeded: set<Id>,         // entries whose handler has returned success
    refused: set<Id>,           // entries whose handler has returned permanent failure
    wins: multiset<Key>,        // successful handlings per key
    lost: multiset<Key>)        // successes whose marker write never happened

  datatype Action =
    | Publish(event: Event)
    | Read(p: nat, count: nat)
    | Scan(p: nat, stale: set<Id>)
    | Claim(p: nat, got: seq<Id>)
    | Check(p: nat)
    | Return(p: nat, outcome: Outcome)
    | Mark(p: nat)
    | Ack(p: nat)
    | Fault(p: nat)      // the await raises
    | Crash(p: nat)      // the process dies
    | Restart(p: nat)

  function KeyOf(w: World, id: Id): Option<Key>
    requires id < |w.stream|
  {
    if w.stream[id].key == Some("") then None else w.stream[id].key
  }

  predicate Accepts(w: World, id: Id)
    requires id < |w.stream|
  {
    w.stream[id].eventType in w.handles
  }

  /** Where a process stands when it takes up an entry: the live path asks the handler
      first and the tracker second, the recovery path the other way round. */
  function Enter(w: World, path: Path, id: Id): Await
    requires id < |w.stream|
  {
    match path
    case Live =>
      if !Accepts(w, id) then Acking(id, false)
      else if KeyOf(w, id).Some? then Checking(id) else Handling(id)
    case Recovery =>
      if KeyOf(w, id).Some? then Checking(id)
      else if !Accepts(w, id) then Acking(id, false) else Handling(id)
  }

  /** Where it goes once the tracker has answered. */
  function Checked(w: World, path: Path, id: Id, marked: bool): Await
    requires id < |w.stream|
  {
    if marked || (path.Recovery? && !Accepts(w, id)) then Acking(id, false) else Handling(id)
  }

  /** The process takes up the next entry of its batch, or is done. */
  function Advance(w: World, path: Path, rest: seq<Id>): Slot
    requires rest == [] || rest[0] < |w.stream|
  {
    if rest == [] then Idle else Busy(path, rest[1..], Enter(w, path, rest[0]))
  }

  /** The ids of the next entries. */
  function Ids(from: nat, count: nat): (ids: seq<Id>)
    ensures |ids| == count && forall i :: 0 <= i < count ==> ids[i] == from + i
    ensures forall id :: id in ids <==> from <= id < from + count
    decreases count
  {
    if count == 0 then [] else [from] + Ids(from + 1, count - 1)
  }

  predicate At(w: World, p: nat, a: Await)
  {
    p < |w.slots| && w.slots[p].Busy? && w.slots[p].at == a
  }

  predicate WellFormed(w: World)
  {
    && w.delivered <= |w.stream|
    && (forall id :: id in w.pending ==> id < w.delivered)
    && (forall p :: 0 <= p < |w.slots| ==> SlotInRange(w, w.slots[p]))
  }

  predicate Below(ids: seq<Id>, bound: nat)
  {
    forall i :: 0 <= i < |ids| ==> ids[i] < bound
  }

  predicate SlotInRange(w: World, s: Slot)
  {
    match s
    case Busy(_, rest, at) => at.id < w.delivered && Below(rest, w.delivered)
    case _ => true
  }

  /** Which actions the code can take in which state. */
  predicate Can(w: World, a: Action)
  {
    WellFormed(w) &&
    match a
    case Publish(_) => true
    case Read(p, count) => p < |w.slots| && w.slots[p].Idle? && w.delivered + count <= |w.stream|
    case Scan(p, stale) => p < |w.slots| && w.slots[p].Idle? && stale <= w.pending
    case Claim(p, got) =>
      p < |w.slots| && w.slots[p].Claiming?
      && forall i :: 0 <= i < |got| ==> got[i] in w.slots[p].stale && got[i] in w.pending
    case Check(p) => p < |w.slots| && w.slots[p].Busy? && w.slots[p].at.Checking?
    case Return(p, _) => p < |w.slots| && w.slots[p].Busy? && w.slots[p].at.Handling?
    case Mark(p) => p < |w.slots| && w.slots[p].Busy? && w.slots[p].at.Marking? && KeyOf(w, w.slots[p].at.id).Some?
    case Ack(p) => p < |w.slots| && w.slots[p].Busy? && w.slots[p].at.Acking?
    case Fault(p) => p < |w.slots| && (w.slots[p].Busy? || w.slots[p].Claiming?)
    case Crash(p) => p < |w.slots| && !w.slots[p].Down?
    case Restart(p) => p < |w.slots| && w.slots[p].Down?
  }

  function Move(w: World, p: nat, s: Slot): World
    requires p < |w.slots|
  {
    w.(slots := w.slots[p := s])
  }

  /** A success that is abandoned before its marker is written is lost to the tracker. */
  function Abandon(w: World, p: nat): World
    requires p < |w.slots|
    requires w.slots[p].Busy? ==> w.slots[p].at.id < |w.stream|
  {
    var s := w.slots[p];
    if s.Busy? && s.at.Marking? && KeyOf(w, s.at.id).Some?
    then w.(lost := w.lost + multiset{KeyOf(w, s.at.id).value})
    else w
  }

  /** Where an exception at the current await leaves the process. The live loop and the
      recovery loop's handler block go on with the next entry; in recovery, an exception
      in the tracker lookup, in the claim or in a skipping acknowledgement ends the pass. */
  function AfterFault(w: World, s: Slot): Slot
    requires s.Busy? || s.Claiming?
    requires s.Busy? ==> Below(s.rest, |w.stream|)
  {
    if s.Claiming? then Idle
    else if s.path.Recovery? && (s.at.Checking? || (s.at.Acking? && !s.at.handled)) then Idle
    else Advance(w, s.path, s.rest)
  }

  function Do(w: World, a: Action): World
    requires Can(w, a)
  {
    match a
    case Publish(e) => w.(stream := w.stream + [e])
    case Read(p, count) =>
      var ids := Ids(w.delivered, count);
      Move(w, p, Advance(w, Live, ids)).(delivered := w.delivered + count,
                                         pending := w.pending + set id | id in ids)
    case Scan(p, stale) => Move(w, p, if stale == {} then Idle else Claiming(stale))
    case Claim(p, got) => Move(w, p, Advance(w, Recovery, got))
    case Check(p) =>
      var s := w.slots[p];
      var key := KeyOf(w, s.at.id);
      Move(w, p, s.(at := Checked(w, s.path, s.at.id, key.Some? && key.value in w.marks)))
    case Return(p, outcome) =>
      var s := w.slots[p];
      var id := s.at.id;
      var key := KeyOf(w, id);
      (match outcome
       case Success =>
         Move(w, p, s.(at := if key.Some? then Marking(id) else Acking(id, true)))
           .(succeeded := w.succeeded + {id},
             wins := if key.Some? then w.wins + multiset{key.value} else w.wins)
       case Retry => Move(w, p, Advance(w, s.path, s.rest))
       case PermanentFailure => Move(w, p, s.(at := Acking(id, true))).(refused := w.refused + {id}))
    case Mark(p) =>
      var s := w.slots[p];
      Move(w, p, s.(at := Acking(s.at.id, true))).(marks := w.marks[KeyOf(w, s.at.id).value := s.at.id])
    case Ack(p) =>
      var s := w.slots[p];
      var id := s.at.id;
      Move(w, p, Advance(w, s.path, s.rest))
        .(pending := w.pending - {id}, acked := if id in w.pending then w.acked + {id} else w.acked)
    case Fault(p) => Move(Abandon(w, p), p, AfterFault(w, w.slots[p]))
    case Crash(p) => Move(Abandon(w, p), p, Down)
    case Restart(p) => Move(w, p, Idle)
  }

  // ---- runs ----

  predicate CanRun(w: World, run: seq<Action>)
    decreases |run|, 0
  {
    run == [] || (CanRun(w, run[..|run| - 1]) && Can(Run(w, run[..|run| - 1]), run[|run| - 1]))
  }

  function Run(w: World, run: seq<Action>): World
    requires CanRun(w, run)
    decreases |run|, 1
  {
    if run == [] then w else Do(Run(w, run[..|run| - 1]), run[|run| - 1])
  }

  /** The group before anything was read: every slot without a process. */
  predicate Initial(w: World)
  {
    && w.delivered == 0 && w.pending == {} && w.acked == {} && w.marks == map[]
    && (forall p :: 0 <= p < |w.slots| ==> w.slots[p] == Down)
    && w.succeeded == {} && w.refused == {} && w.wins == multiset{} && w.lost == multiset{}
  }

  // ---- safety: every delivered entry is pending or justly acknowledged ----

  /** Some entry under the key has been handled successfully and marked. */
  predicate Settled(w: World, key: Key)
  {
    key in w.marks && w.marks[key] < |w.stream| && KeyOf(w, w.marks[key]) == Some(key)
    && w.marks[key] in w.succeeded
  }

  /** The grounds for acknowledging an entry: the handler does not take its type, the
      handler refused it for good, or its handling succeeded; with a key, success means
      that some entry under the key (this one or an earlier one) has succeeded and is
      marked. */
  predicate Justified(w: World, id: Id)
    requires id < |w.stream|
  {
    || !Accepts(w, id)
    || id in w.refused
    || (KeyOf(w, id).None? && id in w.succeeded)
    || (KeyOf(w, id).Some? && Settled(w, KeyOf(w, id).value))
  }

  predicate SlotSound(w: World, s: Slot)
    requires SlotInRange(w, s) && w.delivered <= |w.stream|
  {
    s.Busy? ==>
      match s.at
      case Checking(id) => KeyOf(w, id).Some? && (s.path.Live? ==> Accepts(w, id))
      case Handling(id) => Accepts(w, id)
      case Marking(id) => Accepts(w, id) && KeyOf(w, id).Some? && id in w.succeeded
      case Acking(id, _) => Justified(w, id)
  }

  predicate Safe(w: World)
  {
    && WellFormed(w)
    && (forall id :: id in w.acked ==> id < w.delivered)
    && (forall id :: 0 <= id < w.delivered ==> (id in w.pending <==> id !in w.acked))
    && (forall id :: id in w.acked ==> Justified(w, id))
    && (forall key :: key in w.marks ==> Settled(w, key))
    && (forall p :: 0 <= p < |w.slots| ==> SlotSound(w, w.slots[p]))
  }

  /** What no action undoes. */
  predicate Later(w: World, v: World)
  {
    && w.handles == v.handles && |w.slots| == |v.slots|
    && w.stream <= v.stream && w.delivered <= v.delivered
    && w.acked <= v.acked && w.marks.Keys <= v.marks.Keys
    && w.succeeded <= v.succeeded && w.refused <= v.refused
    && w.wins <= v.wins && w.lost <= v.lost
  }

  /** A process's position stays sound while the world around it moves on. */
  lemma SlotStaysSound(w: World, v: World, s: Slot)
    requires SlotInRange(w, s) && w.delivered <= |w.stream| && SlotSound(w, s)
    requires Later(w, v) && v.delivered <= |v.stream|
    requires forall key :: Settled(w, key) ==> Settled(v, key)
    ensures SlotInRange(v, s) && SlotSound(v, s)
  {
  }

  /** Taking up the next entry of a batch is always a sound position. */
  lemma AdvanceSound(w: World, path: Path, rest: seq<Id>)
    requires w.delivered <= |w.stream| && Below(rest, w.delivered)
    ensures SlotInRange(w, Advance(w, path, rest)) && SlotSound(w, Advance(w, path, rest))
  {
  }

  /** Every action keeps safety, and nothing history records is ever taken back. */
  lemma StepKeepsSafe(w: World, a: Action)
    requires Safe(w) && Can(w, a)
    ensures Safe(Do(w, a)) && Later(w, Do(w, a))
  {
    var v := Do(w, a);
    StepIsLater(w, a);
    StepKeepsSettled(w, a);
    StepKeepsLists(w, a);
    StepKeepsSlots(w, a);
  }

  lemma StepIsLater(w: World, a: Action)
    requires Can(w, a)
    ensures Later(w, Do(w, a))
  {
    match a {
      case Fault(p) => AbandonIsLater(w, p);
      case Crash(p) => AbandonIsLater(w, p);
      case Return(p, outcome) => match outcome { case Success => case Retry => case PermanentFailure => }
      case _ =>
    }
  }

  lemma AbandonIsLater(w: World, p: nat)
    requires WellFormed(w) && p < |w.slots|
    ensures Later(w, Abandon(w, p)) && Abandon(w, p).slots == w.slots
  {
  }

  lemma StepKeepsSettled(w: World, a: Action)
    requires Safe(w) && Can(w, a)
    ensures forall key :: Settled(w, key) ==> Settled(Do(w, a), key)
    ensures forall key :: key in Do(w, a).marks ==> Settled(Do(w, a), key)
  {
  }

  lemma StepKeepsPartition(w: World, a: Action)
    requires Safe(w) && Can(w, a)
    ensures var v := Do(w, a);
      && v.delivered <= |v.stream|
      && (forall id :: id in v.pending || id in v.acked ==> id < v.delivered)
      && (forall id :: 0 <= id < v.delivered ==> (id in v.pending <==> id !in v.acked))
  {
  }

  lemma StepKeepsLists(w: World, a: Action)
    requires Safe(w) && Can(w, a)
    ensures var v := Do(w, a);
      && v.delivered <= |v.stream|
      && (forall id :: id in v.pending || id in v.acked ==> id < v.delivered)
      && (forall id :: 0 <= id < v.delivered ==> (id in v.pending <==> id !in v.acked))
      && (forall id :: id in v.acked ==> Justified(v, id))
  {
    var v := Do(w, a);
    StepIsLater(w, a);
    StepKeepsSettled(w, a);
    StepKeepsPartition(w, a);
    forall id | id in v.acked ensures Justified(v, id) {
      if id !in w.acked {
        assert a.Ack? && SlotSound(w, w.slots[a.p]);
      }
    }
  }

  lemma StepKeepsSlots(w: World, a: Action)
    requires Safe(w) && Can(w, a)
    ensures var v := Do(w, a);
      && v.delivered <= |v.stream|
      && forall p :: 0 <= p < |v.slots| ==> SlotInRange(v, v.slots[p]) && SlotSound(v, v.slots[p])
  {
    var v := Do(w, a);
    StepIsLater(w, a);
    StepKeepsSettled(w, a);
    forall p | 0 <= p < |v.slots| ensures SlotInRange(v, v.slots[p]) && SlotSound(v, v.slots[p]) {
      if v.slots[p] == w.slots[p] {
        SlotStaysSound(w, v, w.slots[p]);
      } else {
        MovedSlotSound(w, a, p);
      }
    }
  }

  lemma MovedSlotSound(w: World, a: Action, p: nat)
    requires Safe(w) && Can(w, a)
    requires p < |w.slots| && Do(w, a).slots[p] != w.slots[p]
    ensures var v := Do(w, a);
      v.delivered <= |v.stream| && SlotInRange(v, v.slots[p]) && SlotSound(v, v.slots[p])
  {
    var v := Do(w, a);
    match a {
      case Publish(_) =>
      case Read(_, count) =>
        assert Advance(w, Live, Ids(w.delivered, count)) == Advance(v, Live, Ids(w.delivered, count));
        AdvanceSound(v, Live, Ids(w.delivered, count));
      case Scan(_, _) =>
      case Claim(_, got) => AdvanceKept(w, a, p, Recovery, got);
      case Check(_) => CheckedSound(w, p);
      case Return(_, outcome) => ReturnedSound(w, p, outcome);
      case Mark(_) =>
      case Ack(_) => AdvanceKept(w, a, p, w.slots[p].path, w.slots[p].rest);
      case Fault(_) =>
        if v.slots[p] != Idle {
          AdvanceKept(w, a, p, w.slots[p].path, w.slots[p].rest);
        }
      case Crash(_) =>
      case Restart(_) =>
    }
  }

  lemma AdvanceKept(w: World, a: Action, p: nat, path: Path, rest: seq<Id>)
    requires Safe(w) && Can(w, a)
    requires Below(rest, w.delivered)
    requires p < |w.slots| && Do(w, a).slots[p] == Advance(w, path, rest)
    ensures var v := Do(w, a);
      v.delivered <= |v.stream| && SlotInRange(v, v.slots[p]) && SlotSound(v, v.slots[p])
  {
    AdvanceSound(w, path, rest);
    StepIsLater(w, a);
    StepKeepsSettled(w, a);
    SlotStaysSound(w, Do(w, a), Advance(w, path, rest));
  }

  lemma CheckedSound(w: World, p: nat)
    requires Safe(w) && Can(w, Check(p))
    ensures var v := Do(w, Check(p)); SlotInRange(v, v.slots[p]) && SlotSound(v, v.slots[p])
  {
    assert SlotSound(w, w.slots[p]);
    var key := KeyOf(w, w.slots[p].at.id);
    assert key.Some? && key.value in w.marks ==> Settled(w, key.value);
  }

  lemma ReturnedSound(w: World, p: nat, outcome: Outcome)
    requires Safe(w) && Can(w, Return(p, outcome))
    ensures var v := Do(w, Return(p, outcome));
      v.delivered <= |v.stream| && SlotInRange(v, v.slots[p]) && SlotSound(v, v.slots[p])
  {
    assert SlotSound(w, w.slots[p]);
    if outcome.Retry? {
      AdvanceKept(w, Return(p, outcome), p, w.slots[p].path, w.slots[p].rest);
    }
  }

  /** An entry handed to the group is, at every moment of every run, either pending or
      acknowledged and never both, and it is acknowledged only on the grounds above. */
  lemma {:induction false} PendingOrJustlyAcknowledged(start: World, run: seq<Action>)
    requires Initial(start) && CanRun(start, run)
    ensures Safe(Run(start, run))
    ensures var w := Run(start, run);
      && (forall id :: 0 <= id < w.delivered ==> (id in w.pending) != (id in w.acked))
      && (forall id :: id in w.acked ==> id < |w.stream| && Justified(w, id))
  {
    assert Safe(start);
    SafeRun(start, run);
  }

  lemma {:induction false} SafeRun(start: World, run: seq<Action>)
    requires Safe(start) && CanRun(start, run)
    ensures Safe(Run(start, run)) && Later(start, Run(start, run))
    decreases |run|
  {
    if run != [] {
      SafeRun(start, run[..|run| - 1]);
      StepKeepsSafe(Run(start, run[..|run| - 1]), run[|run| - 1]);
    }
  }

  // ---- an event whose key is marked ----

  /** The entry's key is marked, and no process has the entry at its handler. */
  predicate Passed(w: World, id: Id)
  {
    && id < |w.stream| && KeyOf(w, id).Some? && KeyOf(w, id).value in w.marks
    && forall p :: 0 <= p < |w.slots| ==> !(w.slots[p].Busy? && w.slots[p].at == Handling(id))
  }

  lemma StepKeepsPassed(w: World, a: Action, id: Id)
    requires Safe(w) && Can(w, a) && Passed(w, id)
    ensures Passed(Do(w, a), id)
    ensures id in Do(w, a).succeeded <==> id in w.succeeded
    ensures id in Do(w, a).refused <==> id in w.refused
  {
    StepIsLater(w, a);
    var v := Do(w, a);
    assert v.stream[id] == w.stream[id];
    forall p | 0 <= p < |v.slots| ensures !(v.slots[p].Busy? && v.slots[p].at == Handling(id)) {
      assert !(w.slots[p].Busy? && w.slots[p].at == Handling(id));
      if a.Publish? || a.p != p {
        assert v.slots[p] == w.slots[p];
      } else {
        OwnStepPasses(w, a, id);
      }
    }
  }

  lemma OwnStepPasses(w: World, a: Action, id: Id)
    requires Can(w, a) && Passed(w, id) && !a.Publish?
    ensures a.p < |Do(w, a).slots|
    ensures !(Do(w, a).slots[a.p].Busy? && Do(w, a).slots[a.p].at == Handling(id))
  {
    EntryIsChecked(w, id);
    match a {
      case Read(p, count) =>
      case Return(p, outcome) => match outcome { case Success => case Retry => case PermanentFailure => }
      case _ =>
    }
  }

  /** An entry with a key is taken up at its check, or not at all. */
  lemma EntryIsChecked(w: World, id: Id)
    requires id < |w.stream| && KeyOf(w, id).Some?
    ensures forall path :: Enter(w, path, id) != Handling(id)
  {
  }

  /** From then on, in every run, the entry is never handed to the handler: redelivered or
      claimed however often, it is only ever acknowledged. */
  lemma {:induction false} MarkedIsNeverHandled(w: World, run: seq<Action>, id: Id)
    requires Safe(w) && CanRun(w, run) && Passed(w, id)
    ensures Passed(Run(w, run), id)
    ensures id in Run(w, run).succeeded <==> id in w.succeeded
    ensures id in Run(w, run).refused <==> id in w.refused
    decreases |run|
  {
    if run != [] {
      SafeRun(w, run[..|run| - 1]);
      MarkedIsNeverHandled(w, run[..|run| - 1], id);
      StepKeepsPassed(Run(w, run[..|run| - 1]), run[|run| - 1], id);
    }
  }

  // ---- how often an event can be handled ----

  predicate HandlesKey(stream: seq<Event>, s: Slot, key: Key)
  {
    s.Busy? && s.at.Handling? && s.at.id < |stream| && stream[s.at.id].key == Some(key)
  }

  predicate MarksKey(stream: seq<Event>, s: Slot, key: Key)
  {
    s.Busy? && s.at.Marking? && s.at.id < |stream| && stream[s.at.id].key == Some(key)
  }

  /** The slots whose handler is running for the key, and those whose handler has
      succeeded for it without having marked it yet. */
  function HandlingNow(w: World, key: Key): set<nat>
  {
    set p: nat | p < |w.slots| && HandlesKey(w.stream, w.slots[p], key)
  }

  function MarkingNow(w: World, key: Key): set<nat>
  {
    set p: nat | p < |w.slots| && MarksKey(w.stream, w.slots[p], key)
  }

  /** Before its marker exists, a key's successes are the lost ones and those about to be
      marked. Afterwards every success was lost or took one of the slots. */
  predicate Counted(w: World, key: Key)
  {
    if key in w.marks
    then w.wins[key] + |HandlingNow(w, key)| <= w.lost[key] + |w.slots|
    else w.wins[key] == w.lost[key] + |MarkingNow(w, key)|
  }

  lemma {:induction false} SlotsBound(s: set<nat>, n: nat)
    requires forall p :: p in s ==> p < n
    ensures |s| <= n
  {
    if n == 0 {
      assert s == {};
    } else {
      SlotsBound(s - {n - 1}, n - 1);
      assert s <= (s - {n - 1}) + {n - 1};
      assert |s| <= |s - {n - 1}| + 1;
    }
  }

  /** Only the acting slot enters or leaves the two sets. */
  lemma OnlyActorMoves(w: World, v: World, key: Key, p: nat)
    requires WellFormed(w) && w.stream <= v.stream && |w.slots| == |v.slots|
    requires forall q :: 0 <= q < |w.slots| && q != p ==> v.slots[q] == w.slots[q]
    ensures HandlingNow(v, key) - {p} == HandlingNow(w, key) - {p}
    ensures MarkingNow(v, key) - {p} == MarkingNow(w, key) - {p}
  {
    forall q | 0 <= q < |w.slots| && q != p
      ensures HandlesKey(v.stream, v.slots[q], key) == HandlesKey(w.stream, w.slots[q], key)
      ensures MarksKey(v.stream, v.slots[q], key) == MarksKey(w.stream, w.slots[q], key)
    {
      assert SlotInRange(w, w.slots[q]);
    }
  }

  lemma SetWithout(s: set<nat>, p: nat)
    ensures |s| == |s - {p}| + (if p in s then 1 else 0)
  {
    if p !in s {
      assert s - {p} == s;
    }
  }

  /** How one action of slot p changes the tallies of a key, said of the slot before and
      after. */
  predicate Moved(w: World, v: World, key: Key, p: nat)
    requires p < |w.slots| == |v.slots|
  {
    var marked, marks := MarksKey(w.stream, w.slots[p], key), MarksKey(v.stream, v.slots[p], key);
    var handled, handles := HandlesKey(w.stream, w.slots[p], key), HandlesKey(v.stream, v.slots[p], key);
    && v.wins[key] == w.wins[key] + (if marks && !marked then 1 else 0)
    && (marks && !marked ==> handled && !handles)
    && (key in w.marks ==> key in v.marks && (handles ==> handled))
    && (key !in w.marks && key in v.marks ==> marked && !marks && !handles && v.lost[key] == w.lost[key])
    && (key !in v.marks ==> v.lost[key] == w.lost[key] + (if marked && !marks then 1 else 0))
    && v.lost[key] >= w.lost[key]
  }

  lemma BatchMoves(w: World, a: Action, key: Key)
    requires Safe(w) && Can(w, a) && key != ""
    requires a.Read? || a.Scan? || a.Claim? || a.Restart?
    ensures |Do(w, a).slots| == |w.slots| && Moved(w, Do(w, a), key, a.p)
  {
  }

  lemma CheckMoves(w: World, a: Action, key: Key)
    requires Safe(w) && Can(w, a) && key != ""
    requires a.Check?
    ensures |Do(w, a).slots| == |w.slots| && Moved(w, Do(w, a), key, a.p)
  {
  }

  lemma ReturnMoves(w: World, a: Action, key: Key)
    requires Can(w, a) && key != ""
    requires a.Return?
    ensures |Do(w, a).slots| == |w.slots| && Moved(w, Do(w, a), key, a.p)
  {
  }

  lemma TrackerMoves(w: World, a: Action, key: Key)
    requires Safe(w) && Can(w, a) && key != ""
    requires a.Mark? || a.Ack?
    ensures |Do(w, a).slots| == |w.slots| && Moved(w, Do(w, a), key, a.p)
  {
  }

  lemma DropMoves(w: World, a: Action, key: Key)
    requires Safe(w) && Can(w, a) && key != ""
    requires a.Fault? || a.Crash?
    ensures |Do(w, a).slots| == |w.slots| && Moved(w, Do(w, a), key, a.p)
  {
  }

  lemma ActionMoves(w: World, a: Action, key: Key)
    requires Safe(w) && Can(w, a) && !a.Publish? && key != ""
    ensures |Do(w, a).slots| == |w.slots| && Moved(w, Do(w, a), key, a.p)
  {
    if a.Read? || a.Scan? || a.Claim? || a.Restart? {
      BatchMoves(w, a, key);
    } else if a.Check? {
      CheckMoves(w, a, key);
    } else if a.Return? {
      ReturnMoves(w, a, key);
    } else if a.Mark? || a.Ack? {
      TrackerMoves(w, a, key);
    } else {
      DropMoves(w, a, key);
    }
  }

  lemma MoveKeepsCount(w: World, v: World, key: Key, p: nat)
    requires WellFormed(w) && w.stream <= v.stream && p < |w.slots| == |v.slots|
    requires forall q :: 0 <= q < |w.slots| && q != p ==> v.slots[q] == w.slots[q]
    requires Counted(w, key) && Moved(w, v, key, p)
    ensures Counted(v, key)
  {
    OnlyActorMoves(w, v, key, p);
    SetWithout(HandlingNow(w, key), p);
    SetWithout(HandlingNow(v, key), p);
    SetWithout(MarkingNow(w, key), p);
    SetWithout(MarkingNow(v, key), p);
    SlotsBound(HandlingNow(w, key) + MarkingNow(w, key), |w.slots|);
    assert HandlingNow(w, key) !! MarkingNow(w, key);
  }

  lemma StepKeepsCount(w: World, a: Action, key: Key)
    requires Safe(w) && Can(w, a) && Counted(w, key) && key != ""
    ensures Counted(Do(w, a), key)
  {
    if a.Publish? {
      PublishKeepsCount(w, a.event, key);
    } else {
      StepIsLater(w, a);
      ActionMoves(w, a, key);
      MoveKeepsCount(w, Do(w, a), key, a.p);
    }
  }

  lemma PublishKeepsCount(w: World, e: Event, key: Key)
    requires WellFormed(w) && Counted(w, key)
    ensures Counted(Do(w, Publish(e)), key)
  {
    var v := Do(w, Publish(e));
    var none := |w.slots|;
    OnlyActorMoves(w, v, key, none);
    assert HandlingNow(w, key) - {none} == HandlingNow(w, key) && HandlingNow(v, key) - {none} == HandlingNow(v, key);
    assert MarkingNow(w, key) - {none} == MarkingNow(w, key) && MarkingNow(v, key) - {none} == MarkingNow(v, key);
  }

  lemma {:induction false} CountedRun(start: World, run: seq<Action>, key: Key)
    requires Safe(start) && CanRun(start, run) && Counted(start, key) && key != ""
    ensures Counted(Run(start, run), key)
    decreases |run|
  {
    if run != [] {
      SafeRun(start, run[..|run| - 1]);
      CountedRun(start, run[..|run| - 1], key);
      StepKeepsCount(Run(start, run[..|run| - 1]), run[|run| - 1], key);
    }
  }

  /** In every run of n consumer slots, with any crashes, faults and restarts, a key is
      handled successfully at most n times plus once for every success whose marker was
      never written; and until its marker exists, every success but those about to be
      marked is such a loss. With one slot this is at-most-once up to losses. */
  lemma HandlingsBounded(start: World, run: seq<Action>, key: Key)
    requires Initial(start) && CanRun(start, run) && key != ""
    ensures var w := Run(start, run);
      && w.wins[key] <= |start.slots| + w.lost[key]
      && (key !in w.marks ==> w.wins[key] == w.lost[key] + |MarkingNow(w, key)|)
  {
    assert HandlingNow(start, key) == {} && MarkingNow(start, key) == {};
    CountedRun(start, run, key);
    SafeRun(start, run);
    SlotsBound(MarkingNow(Run(start, run), key), |start.slots|);
  }

  lemma Extend(start: World, run: seq<Action>, a: Action)
    requires CanRun(start, run) && Can(Run(start, run), a)
    ensures CanRun(start, run + [a]) && Run(start, run + [a]) == Do(Run(start, run), a)
  {
    assert (run + [a])[..|run + [a]| - 1] == run;
  }

  // ---- runs end to end ----

  /** Some run of the machine leads from w to v. */
  ghost predicate Reaches(w: World, v: World)
  {
    exists run :: CanRun(w, run) && Run(w, run) == v
  }

  lemma {:induction false} RunsCompose(w: World, first: seq<Action>, second: seq<Action>)
    requires CanRun(w, first) && CanRun(Run(w, first), second)
    ensures CanRun(w, first + second) && Run(w, first + second) == Run(Run(w, first), second)
    decreases |second|
  {
    if second == [] {
      assert first + second == first;
    } else {
      var front, a := second[..|second| - 1], second[|second| - 1];
      LastStep(Run(w, first), second);
      RunsCompose(w, first, front);
      Extend(w, first + front, a);
      LastOfBoth(first, second);
    }
  }

  lemma LastOfBoth(first: seq<Action>, second: seq<Action>)
    requires second != []
    ensures first + second == first + second[..|second| - 1] + [second[|second| - 1]]
  {
  }

  lemma LastStep(w: World, run: seq<Action>)
    requires run != [] && CanRun(w, run)
    ensures CanRun(w, run[..|run| - 1]) && Can(Run(w, run[..|run| - 1]), run[|run| - 1])
    ensures Run(w, run) == Do(Run(w, run[..|run| - 1]), run[|run| - 1])
  {
  }

  lemma ReachesItself(w: World)
    ensures Reaches(w, w)
  {
    assert CanRun(w, []) && Run(w, []) == w;
  }

  lemma ReachesOn(w: World, u: World, v: World)
    requires Reaches(w, u) && Reaches(u, v)
    ensures Reaches(w, v)
  {
    var first :| CanRun(w, first) && Run(w, first) == u;
    var second :| CanRun(u, second) && Run(u, second) == v;
    RunsCompose(w, first, second);
  }

  lemma ReachesByStep(w: World, a: Action)
    requires Can(w, a)
    ensures Reaches(w, Do(w, a))
  {
    ReachesItself(w);
    Extend(w, [], a);
  }
}
