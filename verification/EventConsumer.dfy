/** The consumer as it is written (src/infrastructure/consumer_group.py:174-393): the
    live loop and the recovery loop as imperative code over the shared group. Every
    command they send is a step of the protocol machine, whatever the other processes do
    meanwhile and whichever awaits raise; a process that dies leaves the group in a state
    along the same run. */
module EventConsumers {
  import opened Wrappers
  import opened Events
  import opened ConsumerProtocol

  /** What happens while a process awaits: actions of the other processes, and whether
      the awaited command then raises. */
  datatype Interlude = Interlude(others: seq<Action>, raises: bool)

  /** The report of a recovery pass. */
  datatype RecoveryResult = RecoveryResult(processed: nat, skipped: nat, failed: nat, claimed: nat)
  {
    function Total(): nat
    {
      processed + skipped + failed + claimed
    }
  }

  datatype Ending = Acknowledged | LeftPending | Raised

  predicate NotOf(p: nat, a: Action)
  {
    a.Publish? || a.p != p
  }

  lemma AckSettles(w: World, p: nat, id: Id, handled: bool, path: Path, rest: seq<Id>)
    requires Safe(w) && p < |w.slots| && w.slots[p] == Busy(path, rest, Acking(id, handled))
    ensures Can(w, Ack(p)) && id in Do(w, Ack(p)).acked && id !in Do(w, Ack(p)).pending
    ensures Do(w, Ack(p)).slots[p] == Advance(Do(w, Ack(p)), path, rest)
  {
  }

  /** A process's own actions along a run. */
  function Own(run: seq<Action>, p: nat): seq<Action>
  {
    if run == [] then []
    else Own(run[..|run| - 1], p) + if NotOf(p, run[|run| - 1]) then [] else [run[|run| - 1]]
  }

  lemma OwnGrows(run: seq<Action>, a: Action, p: nat)
    ensures Own(run + [a], p) == Own(run, p) + if NotOf(p, a) then [] else [a]
  {
    assert (run + [a])[..|run|] == run;
  }

  /** The commands that settle an entry once its handler has been called: a success is marked,
      if it has a key, and then acknowledged; a permanent failure is acknowledged; a retry is
      left alone. */
  function Script(p: nat, outcome: Outcome, keyed: bool): seq<Action>
  {
    [Return(p, outcome)] + Settling(p, outcome, keyed)
  }

  function Settling(p: nat, outcome: Outcome, keyed: bool): seq<Action>
  {
    match outcome
    case Success => if keyed then [Mark(p), Ack(p)] else [Ack(p)]
    case Retry => []
    case PermanentFailure => [Ack(p)]
  }

  /** The script as far as it got: to its end, or up to a command that raised. */
  predicate Followed(did: seq<Action>, script: seq<Action>, p: nat)
  {
    did == script || exists k :: 0 <= k < |script| && did == script[..k] + [Fault(p)]
  }

  lemma Regrouped(s: seq<Action>, a: Action, t: seq<Action>)
    ensures s + [a] + t == s + ([a] + t)
  {
  }

  lemma FollowedAfter(a: Action, did: seq<Action>, script: seq<Action>, p: nat)
    requires Followed(did, script, p)
    ensures Followed([a] + did, [a] + script, p)
    ensures [a] + did == [a] + script <==> did == script
  {
    assert ([a] + did)[1..] == did && ([a] + script)[1..] == script;
    if k :| 0 <= k < |script| && did == script[..k] + [Fault(p)] {
      assert ([a] + script)[..k + 1] == [a] + script[..k];
      assert [a] + did == ([a] + script)[..k + 1] + [Fault(p)];
    }
  }

  /** The last command of the script, as it comes back. */
  lemma SettlingEnds(p: nat, outcome: Outcome, keyed: bool, raises: bool)
    requires !outcome.Retry?
    ensures var script := Settling(p, outcome, keyed);
      var did := script[..|script| - 1] + [if raises then Fault(p) else Ack(p)];
      Followed(did, script, p) && (did == script <==> !raises)
  {
    var script := Settling(p, outcome, keyed);
    var did := script[..|script| - 1] + [if raises then Fault(p) else Ack(p)];
    assert did[|script| - 1] == if raises then Fault(p) else Ack(p);
    assert script == script[..|script| - 1] + [Ack(p)];
  }

  lemma MarkingEnds(p: nat)
    ensures Followed([Fault(p)], [Mark(p), Ack(p)], p) && [Fault(p)] != [Mark(p), Ack(p)]
  {
    FollowedAtOnce([Mark(p), Ack(p)], p);
    assert |[Fault(p)]| != |[Mark(p), Ack(p)]|;
  }

  lemma FollowedAtOnce(script: seq<Action>, p: nat)
    requires script != []
    ensures Followed([Fault(p)], script, p)
  {
    assert [Fault(p)] == script[..0] + [Fault(p)];
  }

  // ---- what an entry's handling should come to ----

  /** How an entry stands when it is taken up: whether the handler takes its type, whether it
      has a key, and whether the key is marked. */
  datatype Standing = Standing(accepted: bool, keyed: bool, marked: bool)

  predicate StandsAs(before: World, w: World, id: Id, st: Standing)
  {
    && id < |w.stream| && st.accepted == Accepts(w, id) && st.keyed == KeyOf(w, id).Some?
    && (st.marked ==> st.keyed && KeyOf(w, id).value in w.marks)
    && (st.keyed && KeyOf(w, id).value in before.marks ==> st.marked)
  }

  /** The handler is called for what it takes and what is not marked. */
  predicate IsForHandler(st: Standing)
  {
    st.accepted && !st.marked
  }

  function Checks(p: nat, path: Path, st: Standing): seq<Action>
  {
    if st.keyed && (path.Recovery? || st.accepted) then [Check(p)] else []
  }

  /** All the commands for an entry, if none raises. */
  function Plan(p: nat, path: Path, st: Standing, outcome: Outcome): seq<Action>
  {
    Checks(p, path, st) + if IsForHandler(st) then Script(p, outcome, st.keyed) else [Ack(p)]
  }

  /** The commands that were sent: the plan, as far as it got. */
  predicate Kept(p: nat, path: Path, st: Standing, outcome: Outcome, did: seq<Action>)
  {
    Followed(did, Plan(p, path, st, outcome), p)
  }

  /** Acknowledged when the plan was carried out and ends so; left pending on a retry, and on
      an exception from the handler on; raised by an exception before. */
  function EndingOf(p: nat, st: Standing, outcome: Outcome, did: seq<Action>): Ending
  {
    if did == Plan(p, Live, st, outcome) && !(IsForHandler(st) && outcome.Retry?) then Acknowledged
    else if IsForHandler(st) && |did| > |Checks(p, Live, st)| then LeftPending
    else Raised
  }

  function StepOf(p: nat, st: Standing, outcome: Outcome, did: seq<Action>): RecoveryStep
  {
    if did == Plan(p, Recovery, st, outcome)
    then (if !IsForHandler(st) then Skipped else if outcome.Success? then Done else Failed)
    else if IsForHandler(st) && |did| > |Checks(p, Recovery, st)| then Failed
    else Aborted
  }

  lemma SkipIsKept(p: nat, path: Path, st: Standing, outcome: Outcome, raises: bool)
    requires !IsForHandler(st)
    ensures var did := Checks(p, path, st) + [if raises then Fault(p) else Ack(p)];
      Kept(p, path, st, outcome, did) && (did == Plan(p, path, st, outcome) <==> !raises)
  {
    var last := [if raises then Fault(p) else Ack(p)];
    if raises {
      FollowedAtOnce([Ack(p)], p);
    }
    assert last[0] == [Ack(p)][0] <==> !raises;
    ChecksFirst(p, path, st, last, [Ack(p)]);
  }

  lemma HandIsKept(p: nat, path: Path, st: Standing, outcome: Outcome, more: seq<Action>)
    requires IsForHandler(st) && Followed(more, Script(p, outcome, st.keyed), p)
    ensures var did := Checks(p, path, st) + more;
      Kept(p, path, st, outcome, did) && |did| > |Checks(p, path, st)|
      && (did == Plan(p, path, st, outcome) <==> more == Script(p, outcome, st.keyed))
  {
    ChecksFirst(p, path, st, more, Script(p, outcome, st.keyed));
    FollowedIsSomething(more, Script(p, outcome, st.keyed), p);
  }

  lemma ChecksFirst(p: nat, path: Path, st: Standing, did: seq<Action>, script: seq<Action>)
    requires Followed(did, script, p)
    ensures Followed(Checks(p, path, st) + did, Checks(p, path, st) + script, p)
    ensures Checks(p, path, st) + did == Checks(p, path, st) + script <==> did == script
  {
    if Checks(p, path, st) == [] {
      assert [] + did == did && [] + script == script;
    } else {
      FollowedAfter(Check(p), did, script, p);
    }
  }

  lemma Grouped(s: seq<Action>, t: seq<Action>, a: Action)
    ensures s + t + [a] == s + (t + [a])
  {
  }

  lemma Joined(s: seq<Action>, t: seq<Action>, u: seq<Action>)
    ensures s + t + u == s + (t + u)
  {
  }

  lemma FailedCheck(p: nat, path: Path, st: Standing, outcome: Outcome)
    requires Checks(p, path, st) == [Check(p)]
    ensures Kept(p, path, st, outcome, [Fault(p)]) && [Fault(p)] != Plan(p, path, st, outcome)
  {
    FollowedAtOnce(Plan(p, path, st, outcome), p);
    assert Plan(p, path, st, outcome)[0] == Check(p);
  }

  lemma FollowedIsSomething(did: seq<Action>, script: seq<Action>, p: nat)
    requires Followed(did, script, p) && script != []
    ensures |did| > 0
  {
  }

  lemma OthersKeepSlot(w: World, p: nat, a: Action)
    requires p < |w.slots| && Can(w, a) && NotOf(p, a)
    ensures p < |Do(w, a).slots| && Do(w, a).slots[p] == w.slots[p]
  {
  }

  /** What the code relies on while other processes run: the stream, the deliveries and
      the acknowledgements only grow. */
  predicate Grown(w: World, v: World)
  {
    && w.handles == v.handles && w.stream <= v.stream && w.delivered <= v.delivered && w.acked <= v.acked
    && w.marks.Keys <= v.marks.Keys
  }

  class EventConsumer {
    var world: World
    var awaits: seq<Interlude>
    const me: nat
    ghost const start: World
    ghost var trace: seq<Action>
    ghost var own: seq<Action>          // this process's actions along the trace

    constructor (w: World, p: nat, schedule: seq<Interlude>)
      requires Safe(w) && p < |w.slots|
      ensures Valid() && world == start == w && me == p && awaits == schedule && own == trace == []
    {
      world, awaits, me := w, schedule, p;
      start, trace, own := w, [], [];
    }

    /** The group is where the machine's run along the trace leads. */
    ghost predicate Valid()
      reads this
    {
      && me < |world.slots| && WellFormed(world) && Safe(start)
      && CanRun(start, trace) && world == Run(start, trace) && own == Own(trace, me)
    }

    method Perform(a: Action)
      requires Valid() && Can(world, a)
      modifies this`world, this`trace, this`own
      ensures Valid() && world == Do(old(world), a) && trace == old(trace) + [a]
      ensures Grown(old(world), world)
      ensures own == old(own) + if NotOf(me, a) then [] else [a]
    {
      SafeRun(start, trace);
      StepKeepsSafe(world, a);
      Extend(start, trace, a);
      OwnGrows(trace, a, me);
      own := own + if NotOf(me, a) then [] else [a];
      world := Do(world, a);
      trace := trace + [a];
    }

    /** Other processes run; this one stays where it is. */
    method Await() returns (raises: bool)
      requires Valid()
      modifies this
      ensures Valid() && old(trace) <= trace && Grown(old(world), world)
      ensures world.slots[me] == old(world.slots[me]) && own == old(own)
    {
      if awaits == [] {
        return false;
      }
      var others := awaits[0].others;
      raises := awaits[0].raises;
      awaits := awaits[1..];
      for i := 0 to |others|
        invariant Valid() && old(trace) <= trace && Grown(old(world), world)
        invariant world.slots[me] == old(world.slots[me]) && own == old(own)
      {
        if NotOf(me, others[i]) && Can(world, others[i]) {
          OthersKeepSlot(world, me, others[i]);
          Perform(others[i]);
        }
      }
    }

    // ---- commands ----

    /** The awaited command raises. */
    method Fail(ghost path: Path, ghost rest: seq<Id>, ghost at: Await)
      requires Valid() && world.slots[me] == Busy(path, rest, at)
      modifies this`world, this`trace, this`own
      ensures Valid() && old(trace) <= trace && Grown(old(world), world) && own == old(own) + [Fault(me)]
      ensures world.slots[me] == if path.Recovery? && (at.Checking? || (at.Acking? && !at.handled)) then Idle
                                 else Advance(world, path, rest)
    {
      Perform(Fault(me));
    }

    method IsProcessed(key: Key, ghost id: Id, ghost path: Path, ghost rest: seq<Id>)
      returns (raises: bool, processed: bool)
      requires Valid() && world.slots[me] == Busy(path, rest, Checking(id)) && KeyOf(world, id) == Some(key)
      modifies this
      ensures Valid() && old(trace) <= trace && Grown(old(world), world)
      ensures !raises ==> processed == (key in world.marks)
                          && world.slots[me] == Busy(path, rest, Checked(world, path, id, processed))
      ensures raises ==> world.slots[me] == if path.Recovery? then Idle else Advance(world, path, rest)
      ensures own == old(own) + [if raises then Fault(me) else Check(me)]
    {
      raises := Await();
      if raises {
        Fail(path, rest, Checking(id));
        processed := false;
      } else {
        processed := key in world.marks;
        Perform(Check(me));
      }
    }

    method AcknowledgeEvent(id: Id, ghost handled: bool, ghost path: Path, ghost rest: seq<Id>)
      returns (raises: bool)
      requires Valid() && world.slots[me] == Busy(path, rest, Acking(id, handled))
      modifies this
      ensures Valid() && old(trace) <= trace && Grown(old(world), world)
      ensures !raises ==> id in world.acked && id !in world.pending && world.slots[me] == Advance(world, path, rest)
      ensures raises ==> world.slots[me] == if path.Recovery? && !handled then Idle else Advance(world, path, rest)
      ensures own == old(own) + [if raises then Fault(me) else Ack(me)]
    {
      raises := Await();
      if raises {
        Fail(path, rest, Acking(id, handled));
      } else {
        SafeRun(start, trace);
        AckSettles(world, me, id, handled, path, rest);
        Perform(Ack(me));
      }
    }

    method MarkProcessed(key: Key, ghost id: Id, ghost path: Path, ghost rest: seq<Id>) returns (raises: bool)
      requires Valid() && world.slots[me] == Busy(path, rest, Marking(id)) && KeyOf(world, id) == Some(key)
      modifies this
      ensures Valid() && old(trace) <= trace && Grown(old(world), world)
      ensures !raises ==> key in world.marks && world.slots[me] == Busy(path, rest, Acking(id, true))
      ensures raises ==> world.slots[me] == Advance(world, path, rest)
      ensures own == old(own) + [if raises then Fault(me) else Mark(me)]
    {
      raises := Await();
      if raises {
        Fail(path, rest, Marking(id));
      } else {
        Perform(Mark(me));
      }
    }

    method Handle(id: Id, outcome: Outcome, ghost path: Path, ghost rest: seq<Id>) returns (raises: bool)
      requires Valid() && world.slots[me] == Busy(path, rest, Handling(id))
      modifies this
      ensures Valid() && old(trace) <= trace && Grown(old(world), world)
      ensures raises || outcome.Retry? ==> world.slots[me] == Advance(world, path, rest)
      ensures !raises && outcome.Success? ==>
        world.slots[me] == Busy(path, rest, if KeyOf(world, id).Some? then Marking(id) else Acking(id, true))
      ensures !raises && outcome.PermanentFailure? ==> world.slots[me] == Busy(path, rest, Acking(id, true))
      ensures own == old(own) + [if raises then Fault(me) else Return(me, outcome)]
    {
      raises := Await();
      if raises {
        Fail(path, rest, Handling(id));
      } else {
        Perform(Return(me, outcome));
      }
    }

    /** The handler call, its marker and its acknowledgement: the try block that both paths
        share. Exceptions inside it end here and leave the entry pending. */
    method HandleAndSettle(id: Id, outcome: Outcome, ghost path: Path, ghost rest: seq<Id>)
      returns (ending: Ending, succeeded: bool, ghost did: seq<Action>)
      requires Valid() && world.slots[me] == Busy(path, rest, Handling(id))
      modifies this
      ensures Valid() && old(trace) <= trace && Grown(old(world), world)
      ensures world.slots[me] == Advance(world, path, rest)
      ensures own == old(own) + did && Followed(did, Script(me, outcome, KeyOf(old(world), id).Some?), me)
      ensures !ending.Raised?
      ensures ending.Acknowledged? <==> did == Script(me, outcome, KeyOf(old(world), id).Some?) && !outcome.Retry?
      ensures ending.Acknowledged? ==> id in world.acked
      ensures succeeded <==> outcome.Success? && ending.Acknowledged?
    {
      ending, succeeded := LeftPending, false;
      ghost var keyed := KeyOf(world, id).Some?;
      var raises := Handle(id, outcome, path, rest);
      if raises {
        did := [Fault(me)];
        FollowedAtOnce(Script(me, outcome, keyed), me);
        return;
      }
      did := [Return(me, outcome)];
      if !outcome.Retry? {
        var acknowledged;
        ghost var more;
        acknowledged, more := Settle(id, outcome, path, rest);
        FollowedAfter(Return(me, outcome), more, Settling(me, outcome, keyed), me);
        Regrouped(old(own), Return(me, outcome), more);
        did := did + more;
        if acknowledged {
          ending, succeeded := Acknowledged, outcome.Success?;
        }
      }
    }

    /** What follows a success or a permanent failure. */
    method Settle(id: Id, outcome: Outcome, ghost path: Path, ghost rest: seq<Id>)
      returns (acknowledged: bool, ghost did: seq<Action>)
      requires Valid() && id < |world.stream| && !outcome.Retry?
      requires world.slots[me] == Busy(path, rest, if outcome.Success? && KeyOf(world, id).Some? then Marking(id)
                                                   else Acking(id, true))
      modifies this
      ensures Valid() && old(trace) <= trace && Grown(old(world), world)
      ensures world.slots[me] == Advance(world, path, rest)
      ensures own == old(own) + did && Followed(did, Settling(me, outcome, KeyOf(old(world), id).Some?), me)
      ensures acknowledged <==> did == Settling(me, outcome, KeyOf(old(world), id).Some?)
      ensures acknowledged ==> id in world.acked
    {
      var key := KeyOf(world, id);
      did := [];
      if outcome.Success? && key.Some? {
        var raises := MarkProcessed(key.value, id, path, rest);
        if raises {
          MarkingEnds(me);
          return false, [Fault(me)];
        }
        did := [Mark(me)];
      }
      ghost var script := Settling(me, outcome, key.Some?);
      assert did == script[..|script| - 1];
      var raises := AcknowledgeEvent(id, true, path, rest);
      SettlingEnds(me, outcome, key.Some?, raises);
      did := did + [if raises then Fault(me) else Ack(me)];
      acknowledged := !raises;
    }

    // ---- the live path ----

    /** An entry that the handler is not asked about is acknowledged. */
    method Skip(id: Id, ghost path: Path, ghost rest: seq<Id>, ghost st: Standing, ghost outcome: Outcome,
                ghost before: seq<Action>)
      returns (raises: bool, ghost did: seq<Action>)
      requires Valid() && world.slots[me] == Busy(path, rest, Acking(id, false))
      requires !IsForHandler(st) && own == before + Checks(me, path, st)
      modifies this
      ensures Valid() && old(trace) <= trace && Grown(old(world), world)
      ensures world.slots[me] == if raises && path.Recovery? then Idle else Advance(world, path, rest)
      ensures own == before + did && Kept(me, path, st, outcome, did)
      ensures did == Plan(me, path, st, outcome) <==> !raises
      ensures !raises ==> id in world.acked
    {
      raises := AcknowledgeEvent(id, false, path, rest);
      ghost var last := if raises then Fault(me) else Ack(me);
      SkipIsKept(me, path, st, outcome, raises);
      Grouped(before, Checks(me, path, st), last);
      did := Checks(me, path, st) + [last];
    }

    /** Any other is handed to the handler and settled. */
    method Hand(id: Id, outcome: Outcome, ghost path: Path, ghost rest: seq<Id>, ghost st: Standing, ghost before: seq<Action>)
      returns (ending: Ending, succeeded: bool, ghost did: seq<Action>)
      requires Valid() && world.slots[me] == Busy(path, rest, Handling(id))
      requires IsForHandler(st) && st.keyed == KeyOf(world, id).Some? && own == before + Checks(me, path, st)
      modifies this
      ensures Valid() && old(trace) <= trace && Grown(old(world), world)
      ensures world.slots[me] == Advance(world, path, rest)
      ensures own == before + did && Kept(me, path, st, outcome, did) && |did| > |Checks(me, path, st)|
      ensures ending == if did == Plan(me, path, st, outcome) && !outcome.Retry? then Acknowledged else LeftPending
      ensures ending.Acknowledged? ==> id in world.acked
      ensures succeeded <==> outcome.Success? && ending.Acknowledged?
    {
      ghost var more;
      ending, succeeded, more := HandleAndSettle(id, outcome, path, rest);
      HandIsKept(me, path, st, outcome, more);
      Joined(before, Checks(me, path, st), more);
      did := Checks(me, path, st) + more;
    }

    /** `_handle_event`: whether the handler takes the type, whether the key was processed,
        then the handler. What it sends and how it ends are fixed by how the entry stands and
        by what the handler returns. */
    method HandleEvent(id: Id, outcome: Outcome, ghost rest: seq<Id>)
      returns (ending: Ending, ghost t: Taking)
      requires Valid() && id < world.delivered
      requires world.slots[me] == Busy(Live, rest, Enter(world, Live, id))
      modifies this
      ensures Valid() && old(trace) <= trace && Grown(old(world), world)
      ensures world.slots[me] == Advance(world, Live, rest)
      ensures own == old(own) + t.did && Taken(old(world), world, me, Live, id, outcome, t)
      ensures ending == EndingOf(me, t.st, outcome, t.did)
    {
      var key := KeyOf(world, id);
      ghost var before := own;
      ghost var did;
      var raises, processed := false, false;
      ghost var st := Standing(Accepts(world, id), key.Some?, key.Some? && key.value in world.marks);
      if world.stream[id].eventType !in world.handles {
        raises, did := Skip(id, Live, rest, st, outcome, before);
        return if raises then Raised else Acknowledged, Taking(st, did);
      }
      if key.Some? {
        raises, processed := IsProcessed(key.value, id, Live, rest);
        st := Standing(true, true, key.value in world.marks);
        if raises {
          FailedCheck(me, Live, st, outcome);
          return Raised, Taking(st, [Fault(me)]);
        }
      }
      if processed {
        raises, did := Skip(id, Live, rest, st, outcome, before);
        ending := if raises then Raised else Acknowledged;
      } else {
        var succeeded;
        ending, succeeded, did := Hand(id, outcome, Live, rest, st, before);
      }
      t := Taking(st, did);
    }

    /** `_process_once`: one batch from the stream, unless the read raises: the next entries not
        delivered yet, as many as the batch takes or there are. Every entry of the batch is
        taken up as its standing and its handler's outcome have it, nothing else is sent, and
        the count is of those whose handling did not raise. */
    method ProcessOnce(batchSize: nat, outcome: Id -> Outcome)
      returns (raised: bool, processed: nat, ghost from: Id, ghost batch: seq<Id>,
               ghost taken: seq<Taking>)
      requires Valid() && world.slots[me].Idle?
      modifies this
      ensures Valid() && old(trace) <= trace && Grown(old(world), world)
      ensures world.slots[me].Idle?
      ensures |batch| == |taken| <= batchSize && Below(batch, world.delivered)
      ensures own == old(own) + (if raised then [] else [Read(me, |batch|)]) + Commands(taken)
      ensures old(world.delivered) <= from && batch == Ids(from, |batch|)
      ensures !raised ==> |batch| == batchSize || |old(world.stream)| <= from + |batch|
      ensures raised ==> batch == []
      ensures AllTaken(old(world), world, me, Live, batch, outcome, taken)
      ensures processed == NotRaising(Endings(me, batch, outcome, taken))
    {
      processed, taken := 0, [];
      var entries;
      ghost var before := world;
      raised, from, entries := ReadBatch(batchSize);
      batch := entries;
      if !raised {
        ghost var read := world;
        processed, taken := TakeUpAll(entries, outcome);
        TakenFromBefore(before, read, world, me, Live, batch, outcome, taken);
      }
    }

    /** XREADGROUP: the next entries, moved to the pending list. */
    method ReadBatch(batchSize: nat) returns (raised: bool, ghost from: Id, batch: seq<Id>)
      requires Valid() && world.slots[me].Idle?
      modifies this
      ensures Valid() && old(trace) <= trace && Grown(old(world), world)
      ensures Below(batch, world.delivered) && world.slots[me] == Advance(world, Live, batch)
      ensures old(world.delivered) <= from && batch == Ids(from, |batch|) && |batch| <= batchSize
      ensures !raised ==> |batch| == batchSize || |old(world.stream)| <= from + |batch|
      ensures raised ==> batch == []
      ensures own == old(own) + if raised then [] else [Read(me, |batch|)]
    {
      raised := Await();
      from, batch := world.delivered, [];
      if !raised {
        var available := |world.stream| - world.delivered;
        batch := Ids(world.delivered, if available < batchSize then available else batchSize);
        Perform(Read(me, |batch|));
      }
    }

    /** The loop over a batch. */
    method TakeUpAll(batch: seq<Id>, outcome: Id -> Outcome) returns (processed: nat, ghost taken: seq<Taking>)
      requires Valid() && Below(batch, world.delivered) && world.slots[me] == Advance(world, Live, batch)
      modifies this
      ensures Valid() && old(trace) <= trace && Grown(old(world), world)
      ensures world.slots[me].Idle? && |taken| == |batch|
      ensures SoFar(old(world), world, me, Live, batch, outcome, taken, old(own), own)
      ensures processed == NotRaising(Endings(me, batch, outcome, taken))
    {
      processed, taken := 0, [];
      var rest := batch;
      while rest != []
        invariant Valid() && old(trace) <= trace && Grown(old(world), world)
        invariant |taken| + |rest| == |batch| && rest == batch[|taken|..]
        invariant world.slots[me] == Advance(world, Live, rest)
        invariant SoFar(old(world), world, me, Live, batch, outcome, taken, old(own), own)
        invariant processed == NotRaising(Endings(me, batch, outcome, taken))
        decreases |rest|
      {
        NextOfBatch(batch, |taken|);
        ghost var before, sent := world, own;
        var ending;
        ghost var t;
        ending, t := HandleEvent(rest[0], outcome(rest[0]), rest[1..]);
        OneMoreTaken(old(world), before, world, me, Live, batch, outcome, taken, t, old(own), sent, own);
        EndingsGrow(me, batch, outcome, taken, t);
        processed := processed + if ending.Raised? then 0 else 1;
        taken := taken + [t];
        rest := rest[1..];
      }
    }

    // ---- the recovery path ----

    /** XPENDING, then XCLAIM of what it reported as stale; an entry acknowledged in between
        is not claimed, and nothing else is missed. */
    method ClaimStale(idle: set<Id>, reply: seq<Id>)
      returns (raises: bool, got: seq<Id>, ghost did: seq<Action>)
      requires Valid() && world.slots[me].Idle?
      modifies this
      ensures Valid() && old(trace) <= trace && Grown(old(world), world)
      ensures raises ==> world.slots[me].Idle?
      ensures !raises ==> Below(got, world.delivered) && world.slots[me] == Advance(world, Recovery, got)
      ensures !raises ==> Picked(got, reply, idle, old(world), world)
      ensures own == old(own) + did && Claims(me, did, got, raises)
    {
      got, did := [], [];
      var stale;
      raises, stale := ScanPending(idle);
      if raises {
        return;
      }
      ghost var scanned := world;
      did := [Scan(me, stale)];
      SafeRun(start, trace);
      if stale != {} {
        ghost var last;
        raises, got, last := ClaimNow(stale, reply);
        Regrouped(old(own), Scan(me, stale), [last]);
        did := [Scan(me, stale)] + [last];
      }
      SafeRun(start, trace);
      PickedFromStale(got, reply, idle, stale, old(world), scanned, world, raises);
      assert Claims(me, did, got, raises);
    }

    method ScanPending(idle: set<Id>) returns (raises: bool, stale: set<Id>)
      requires Valid() && world.slots[me].Idle?
      modifies this
      ensures Valid() && old(trace) <= trace && Grown(old(world), world)
      ensures !raises ==> stale == idle * world.pending
      ensures world.slots[me] == if raises || stale == {} then Idle else Claiming(stale)
      ensures own == old(own) + if raises then [] else [Scan(me, stale)]
    {
      stale := {};
      raises := Await();
      if !raises {
        stale := idle * world.pending;
        Perform(Scan(me, stale));
      }
    }

    method ClaimNow(stale: set<Id>, reply: seq<Id>) returns (raises: bool, got: seq<Id>, ghost last: Action)
      requires Valid() && world.slots[me] == Claiming(stale)
      modifies this
      ensures Valid() && old(trace) <= trace && Grown(old(world), world)
      ensures raises ==> world.slots[me].Idle? && got == []
      ensures !raises ==> Below(got, world.delivered) && world.slots[me] == Advance(world, Recovery, got)
      ensures !raises ==> got == StillPending(reply, stale * world.pending)
      ensures last == (if raises then Fault(me) else Claim(me, got)) && own == old(own) + [last]
    {
      got := [];
      raises := Await();
      if raises {
        Perform(Fault(me));
        last := Fault(me);
      } else {
        got := StillPending(reply, stale * world.pending);
        Perform(Claim(me, got));
        last := Claim(me, got);
      }
    }

    /** `process_pending`: claim the entries that have been idle for a minute and process
        them; the tracker is asked first, the handler second. `idle` is what Redis reports
        as idle, `reply` the order in which it returns the claimed entries. */
    method ProcessPending(idle: set<Id>, reply: seq<Id>, outcome: Id -> Outcome)
      returns (result: RecoveryResult, raised: bool, completed: bool, ghost got: seq<Id>, ghost claimed: World,
               ghost did: seq<Action>, ghost taken: seq<Taking>)
      requires Valid() && world.slots[me].Idle?
      modifies this
      ensures Valid() && old(trace) <= trace && Grown(old(world), claimed) && Grown(claimed, world)
      ensures world.slots[me].Idle?
      ensures result.claimed == |got| && (completed ==> !raised && result.Total() == 2 * result.claimed)
      ensures if raised then got == [] else Picked(got, reply, idle, old(world), claimed)
      ensures |taken| <= |got| && (completed ==> |taken| == |got|)
      ensures !raised ==> Reported(me, got, outcome, taken, result, completed)
      ensures Claims(me, did, got, raised) && own == old(own) + did + Commands(taken)
      ensures AllTaken(claimed, world, me, Recovery, got, outcome, taken)
    {
      taken := [];
      var claimedIds;
      raised, claimedIds, did := ClaimStale(idle, reply);
      got, claimed := claimedIds, world;
      result, completed := RecoveryResult(0, 0, 0, 0), false;
      if !raised {
        result, completed, taken := RecoverAll(claimedIds, outcome);
      }
    }

    /** The loop over the claimed entries, which an exception of the tracker or of an
        acknowledgement ends. */
    method RecoverAll(got: seq<Id>, outcome: Id -> Outcome)
      returns (result: RecoveryResult, completed: bool, ghost taken: seq<Taking>)
      requires Valid() && Below(got, world.delivered) && world.slots[me] == Advance(world, Recovery, got)
      modifies this
      ensures Valid() && old(trace) <= trace && Grown(old(world), world)
      ensures world.slots[me].Idle? && (completed ==> |taken| == |got|)
      ensures SoFar(old(world), world, me, Recovery, got, outcome, taken, old(own), own)
      ensures Reported(me, got, outcome, taken, result, completed)
    {
      result, completed, taken := RecoveryResult(0, 0, 0, |got|), true, [];
      var rest := got;
      while rest != []
        invariant Valid() && old(trace) <= trace && Grown(old(world), world)
        invariant if completed then Below(rest, world.delivered) && world.slots[me] == Advance(world, Recovery, rest)
                  else world.slots[me].Idle?
        invariant OnTrack(got, rest, |taken|, completed)
        invariant SoFar(old(world), world, me, Recovery, got, outcome, taken, old(own), own)
        invariant Reported(me, got, outcome, taken, result, completed)
        decreases |rest|
      {
        NextOfBatch(got, |taken|);
        ghost var before, sent := world, own;
        var step;
        ghost var t;
        step, t := RecoverEntry(rest[0], outcome(rest[0]), rest[1..]);
        OneMoreTaken(old(world), before, world, me, Recovery, got, outcome, taken, t, old(own), sent, own);
        ReportGrows(me, got, outcome, taken, t, result);
        result := Counting(result, step);
        completed := !step.Aborted?;
        taken := taken + [t];
        rest := if completed then rest[1..] else [];
      }
    }

    /** One round of the recovery loop. */
    method RecoverEntry(id: Id, outcome: Outcome, ghost rest: seq<Id>)
      returns (step: RecoveryStep, ghost t: Taking)
      requires Valid() && id < world.delivered
      requires world.slots[me] == Busy(Recovery, rest, Enter(world, Recovery, id))
      modifies this
      ensures Valid() && old(trace) <= trace && Grown(old(world), world)
      ensures world.slots[me] == if step.Aborted? then Idle else Advance(world, Recovery, rest)
      ensures own == old(own) + t.did && Taken(old(world), world, me, Recovery, id, outcome, t)
      ensures step == StepOf(me, t.st, outcome, t.did)
    {
      var key := KeyOf(world, id);
      ghost var before := own;
      ghost var did;
      var raises, processed := false, false;
      ghost var st := Standing(Accepts(world, id), key.Some?, false);
      if key.Some? {
        raises, processed := IsProcessed(key.value, id, Recovery, rest);
        st := st.(marked := key.value in world.marks);
        if raises {
          FailedCheck(me, Recovery, st, outcome);
          return Aborted, Taking(st, [Fault(me)]);
        }
      }
      if processed || world.stream[id].eventType !in world.handles {
        raises, did := Skip(id, Recovery, rest, st, outcome, before);
        step := if raises then Aborted else Skipped;
      } else {
        var ending, succeeded;
        ending, succeeded, did := Hand(id, outcome, Recovery, rest, st, before);
        step := if succeeded then Done else Failed;
      }
      t := Taking(st, did);
    }
  }

  /** The counter of the step goes up. */
  function Counting(result: RecoveryResult, step: RecoveryStep): RecoveryResult
  {
    match step
    case Done => result.(processed := result.processed + 1)
    case Skipped => result.(skipped := result.skipped + 1)
    case Failed => result.(failed := result.failed + 1)
    case Aborted => result
  }

  /** The counters are the numbers of steps of each kind; only an abort ends a pass early. */
  predicate Counts(result: RecoveryResult, steps: seq<RecoveryStep>, completed: bool)
  {
    && result.processed == multiset(steps)[Done] && result.skipped == multiset(steps)[Skipped]
    && result.failed == multiset(steps)[Failed] && (completed <==> Aborted !in steps)
    && result.processed + result.skipped + result.failed + multiset(steps)[Aborted] == |steps|
  }

  lemma CountsGrow(result: RecoveryResult, steps: seq<RecoveryStep>, step: RecoveryStep)
    requires Counts(result, steps, true)
    ensures Counts(Counting(result, step), steps + [step], !step.Aborted?)
  {
  }

  predicate Reported(p: nat, got: seq<Id>, outcome: Id -> Outcome, taken: seq<Taking>, result: RecoveryResult, completed: bool)
  {
    |taken| <= |got| == result.claimed && Counts(result, Steps(p, got, outcome, taken), completed)
  }

  lemma ReportGrows(p: nat, got: seq<Id>, outcome: Id -> Outcome, taken: seq<Taking>, t: Taking, result: RecoveryResult)
    requires Reported(p, got, outcome, taken, result, true) && |taken| < |got|
    ensures var step := StepOf(p, t.st, outcome(got[|taken|]), t.did);
      Reported(p, got, outcome, taken + [t], Counting(result, step), !step.Aborted?)
  {
    StepsGrow(p, got, outcome, taken, t);
    CountsGrow(result, Steps(p, got, outcome, taken), StepOf(p, t.st, outcome(got[|taken|]), t.did));
  }

  /** How far the recovery loop has come: to the next entry, or to its early end. */
  predicate OnTrack(got: seq<Id>, rest: seq<Id>, taken: nat, completed: bool)
  {
    taken <= |got| && if completed then rest == got[taken..] else rest == []
  }

  lemma NextOfBatch(batch: seq<Id>, k: nat)
    requires k < |batch|
    ensures batch[k..][0] == batch[k] && batch[k..][1..] == batch[k + 1..]
  {
  }

  /** How an entry was taken up: how it stood, and what was sent for it. */
  datatype Taking = Taking(st: Standing, did: seq<Action>)

  /** The commands for the entry were its plan, as far as it got, and where the plan ends with
      an acknowledgement and was carried out, the entry is acknowledged. */
  predicate Taken(before: World, w: World, p: nat, path: Path, id: Id, outcome: Outcome, t: Taking)
  {
    && StandsAs(before, w, id, t.st) && Kept(p, path, t.st, outcome, t.did)
    && (t.did == Plan(p, path, t.st, outcome) && !(IsForHandler(t.st) && outcome.Retry?) ==> id in w.acked)
  }

  predicate AllTaken(before: World, w: World, p: nat, path: Path, ids: seq<Id>, outcome: Id -> Outcome, taken: seq<Taking>)
  {
    |taken| <= |ids| && forall i :: 0 <= i < |taken| ==> Taken(before, w, p, path, ids[i], outcome(ids[i]), taken[i])
  }

  /** How the live handlings of the entries ended. */
  function Endings(p: nat, ids: seq<Id>, outcome: Id -> Outcome, taken: seq<Taking>): (endings: seq<Ending>)
    requires |taken| <= |ids|
    ensures |endings| == |taken|
  {
    seq(|taken|, i requires 0 <= i < |taken| => EndingOf(p, taken[i].st, outcome(ids[i]), taken[i].did))
  }

  function Steps(p: nat, ids: seq<Id>, outcome: Id -> Outcome, taken: seq<Taking>): (steps: seq<RecoveryStep>)
    requires |taken| <= |ids|
    ensures |steps| == |taken|
  {
    seq(|taken|, i requires 0 <= i < |taken| => StepOf(p, taken[i].st, outcome(ids[i]), taken[i].did))
  }

  function NotRaising(endings: seq<Ending>): nat
  {
    |endings| - multiset(endings)[Raised]
  }

  lemma EndingsGrow(p: nat, ids: seq<Id>, outcome: Id -> Outcome, taken: seq<Taking>, t: Taking)
    requires |taken| < |ids|
    ensures var ending := EndingOf(p, t.st, outcome(ids[|taken|]), t.did);
      NotRaising(Endings(p, ids, outcome, taken + [t]))
      == NotRaising(Endings(p, ids, outcome, taken)) + if ending.Raised? then 0 else 1
  {
    var ending := EndingOf(p, t.st, outcome(ids[|taken|]), t.did);
    assert Endings(p, ids, outcome, taken + [t]) == Endings(p, ids, outcome, taken) + [ending];
  }

  lemma StepsGrow(p: nat, ids: seq<Id>, outcome: Id -> Outcome, taken: seq<Taking>, t: Taking)
    requires |taken| < |ids|
    ensures Steps(p, ids, outcome, taken + [t])
         == Steps(p, ids, outcome, taken) + [StepOf(p, t.st, outcome(ids[|taken|]), t.did)]
  {
  }

  /** The entries so far have been taken up, and nothing else was sent. */
  predicate SoFar(before: World, w: World, p: nat, path: Path, ids: seq<Id>, outcome: Id -> Outcome,
                  taken: seq<Taking>, sent: seq<Action>, own: seq<Action>)
  {
    own == sent + Commands(taken) && AllTaken(before, w, p, path, ids, outcome, taken)
  }

  lemma OneMoreTaken(before: World, v: World, w: World, p: nat, path: Path, ids: seq<Id>, outcome: Id -> Outcome,
                     taken: seq<Taking>, t: Taking, sent: seq<Action>, was: seq<Action>, own: seq<Action>)
    requires SoFar(before, v, p, path, ids, outcome, taken, sent, was) && |taken| < |ids|
    requires Grown(before, v) && Grown(v, w) && Taken(v, w, p, path, ids[|taken|], outcome(ids[|taken|]), t)
    requires own == was + t.did
    ensures SoFar(before, w, p, path, ids, outcome, taken + [t], sent, own)
  {
    TakenGrows(before, v, w, p, path, ids, outcome, taken, t);
    CommandsGrow(sent, taken, t);
  }

  /** What claiming sends: nothing if the first reply does not come, and no claim if nothing is
      stale. */
  ghost predicate Claims(p: nat, did: seq<Action>, got: seq<Id>, raises: bool)
  {
    if raises then got == [] && (did == [] || exists stale :: did == [Scan(p, stale), Fault(p)])
    else (got == [] && did == [Scan(p, {})]) || exists stale :: stale != {} && did == [Scan(p, stale), Claim(p, got)]
  }

  /** The claimed entries are those of the reply that were idle and are still pending; among
      those delivered before, none is missing. */
  predicate Picked(got: seq<Id>, reply: seq<Id>, idle: set<Id>, before: World, w: World)
  {
    && (forall id :: id in got ==> id in reply && id in idle && id in w.pending)
    && (forall id :: id in reply && id in idle && id in w.pending && id < before.delivered ==> id in got)
  }

  /** What is pending now and was delivered then was pending then. */
  lemma PendingWasPending(before: World, w: World, v: World)
    requires Safe(w) && Safe(v) && Grown(before, w) && Grown(w, v)
    ensures forall id :: id in v.pending && id < before.delivered ==> id in w.pending
  {
    forall id | id in v.pending && id < before.delivered ensures id in w.pending {
      assert id !in v.acked;
    }
  }

  lemma PickedFromStale(got: seq<Id>, reply: seq<Id>, idle: set<Id>, stale: set<Id>, before: World, w: World, v: World, raises: bool)
    requires Safe(w) && Safe(v) && Grown(before, w) && Grown(w, v) && stale == idle * w.pending
    requires if stale == {} || raises then got == [] else got == StillPending(reply, stale * v.pending)
    ensures !raises ==> Picked(got, reply, idle, before, v)
  {
    PendingWasPending(before, w, v);
    forall id | id in reply && id in idle && id in v.pending && id < before.delivered ensures id in stale && id in stale * v.pending {
    }
  }

  lemma TakenFromBefore(before: World, u: World, w: World, p: nat, path: Path, ids: seq<Id>, outcome: Id -> Outcome,
                        taken: seq<Taking>)
    requires AllTaken(u, w, p, path, ids, outcome, taken) && Grown(before, u) && Grown(u, w)
    ensures AllTaken(before, w, p, path, ids, outcome, taken)
  {
    forall i | 0 <= i < |taken| ensures Taken(before, w, p, path, ids[i], outcome(ids[i]), taken[i]) {
      assert Taken(u, w, p, path, ids[i], outcome(ids[i]), taken[i]);
      StandsOn(before, u, w, w, ids[i], taken[i].st);
    }
  }

  /** Everything that was sent for the entries, in their order. */
  function Commands(taken: seq<Taking>): seq<Action>
  {
    if taken == [] then [] else Commands(taken[..|taken| - 1]) + taken[|taken| - 1].did
  }

  lemma CommandsGrow(own: seq<Action>, taken: seq<Taking>, t: Taking)
    ensures own + Commands(taken) + t.did == own + Commands(taken + [t])
  {
    assert (taken + [t])[..|taken|] == taken;
  }

  lemma StandsOn(before: World, u: World, v: World, w: World, id: Id, st: Standing)
    requires StandsAs(u, v, id, st) && Grown(before, u) && Grown(v, w)
    ensures StandsAs(before, w, id, st)
  {
  }

  lemma TakenGrows(before: World, v: World, w: World, p: nat, path: Path, ids: seq<Id>, outcome: Id -> Outcome,
                   taken: seq<Taking>, t: Taking)
    requires AllTaken(before, v, p, path, ids, outcome, taken) && |taken| < |ids|
    requires Grown(before, v) && Grown(v, w) && Taken(v, w, p, path, ids[|taken|], outcome(ids[|taken|]), t)
    ensures AllTaken(before, w, p, path, ids, outcome, taken + [t])
  {
    StandsOn(before, v, w, w, ids[|taken|], t.st);
    forall i | 0 <= i < |taken| ensures Taken(before, w, p, path, ids[i], outcome(ids[i]), taken[i]) {
      assert Taken(before, v, p, path, ids[i], outcome(ids[i]), taken[i]);
      StandsOn(before, before, v, w, ids[i], taken[i].st);
    }
  }

  datatype RecoveryStep = Done | Skipped | Failed | Aborted

  /** The claimed entries in the order of the reply. */
  function StillPending(reply: seq<Id>, live: set<Id>): (got: seq<Id>)
    ensures forall id :: id in got <==> id in reply && id in live
    ensures forall i :: 0 <= i < |got| ==> got[i] in live
  {
    if reply == [] then []
    else if reply[0] in live then [reply[0]] + StillPending(reply[1..], live)
    else StillPending(reply[1..], live)
  }
}
