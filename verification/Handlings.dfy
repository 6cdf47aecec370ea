/** How often a key can be handled: every slot can do it once, so the bound that
    ConsumerProtocol.HandlingsBounded proves is reached for every number of consumers. */
module Handlings {
  import opened Wrappers
  import opened Events
  import opened ConsumerProtocol

  /** The run leads from start to w with nothing crashing or raising. */
  ghost predicate Quiet(start: World, run: seq<Action>, w: World)
  {
    CanRun(start, run) && Run(start, run) == w && forall a :: a in run ==> !a.Crash? && !a.Fault?
  }

  lemma QuietStep(start: World, run: seq<Action>, w: World, a: Action, v: World)
    requires Quiet(start, run, w) && Can(w, a) && Do(w, a) == v && !a.Crash? && !a.Fault?
    ensures Quiet(start, run + [a], v)
  {
    Extend(start, run, a);
  }

  /** Everything is delivered, and nothing handled successfully, marked or lost. */
  predicate Untouched(start: World, w: World)
  {
    && WellFormed(w) && w.handles == start.handles && |w.slots| == |start.slots| && w.delivered == |w.stream|
    && w.marks == map[] && w.wins == multiset{} && w.lost == multiset{}
  }

  // ---- what is in the stream already ----

  /** The first slot is on the live path, and nobody else is up. */
  predicate Draining(start: World, w: World)
  {
    && Untouched(start, w) && |w.slots| > 0 && !w.slots[0].Claiming? && !w.slots[0].Down?
    && (w.slots[0].Busy? ==> w.slots[0].path.Live? && !w.slots[0].at.Marking?)
    && forall p :: 1 <= p < |w.slots| ==> w.slots[p] == Down
  }

  /** How much the slot has still to do. */
  function Remaining(s: Slot): nat
  {
    match s
    case Busy(_, rest, at) => 4 * |rest| + (match at case Checking(_) => 3 case Handling(_) => 2 case _ => 1)
    case _ => 0
  }

  /** One more await of the first slot, whose handler asks for another attempt. */
  lemma DrainsOn(start: World, w: World) returns (a: Action)
    requires Draining(start, w) && w.slots[0].Busy?
    ensures Can(w, a) && !a.Crash? && !a.Fault?
    ensures Draining(start, Do(w, a)) && Remaining(Do(w, a).slots[0]) < Remaining(w.slots[0])
  {
    match w.slots[0].at {
      case Checking(_) => a := Check(0);
      case Handling(_) => a := Return(0, Retry);
      case Acking(_, _) => a := Ack(0);
    }
  }

  lemma {:induction false} Drain(start: World, run: seq<Action>, w: World) returns (longer: seq<Action>, v: World)
    requires Quiet(start, run, w) && Draining(start, w)
    ensures Quiet(start, longer, v) && Draining(start, v) && v.slots[0] == Idle
    decreases Remaining(w.slots[0])
  {
    longer, v := run, w;
    if w.slots[0].Busy? {
      var a := DrainsOn(start, w);
      QuietStep(start, run, w, a, Do(w, a));
      longer, v := Drain(start, run + [a], Do(w, a));
    }
  }

  lemma Drained(start: World) returns (run: seq<Action>, w: World)
    requires Initial(start) && |start.slots| > 0
    ensures Quiet(start, run, w) && Draining(start, w) && w.slots[0] == Idle
  {
    var up := Do(start, Restart(0));
    QuietStep(start, [], start, Restart(0), up);
    var all := Read(0, |start.stream|);
    var read := Do(up, all);
    QuietStep(start, [] + [Restart(0)], up, all, read);
    run, w := Drain(start, [] + [Restart(0)] + [all], read);
  }

  // ---- one event per slot ----

  /** The slot is at the handler with an entry under the key. */
  predicate Poised(w: World, p: nat, key: Key)
    requires p < |w.slots|
  {
    && w.slots[p].Busy? && w.slots[p] == Busy(Live, [], Handling(w.slots[p].at.id))
    && w.slots[p].at.id < |w.stream| && KeyOf(w, w.slots[p].at.id) == Some(key)
  }

  /** The first n slots are at the handler, the others between batches or down. */
  predicate AllPoised(start: World, w: World, n: nat, key: Key)
  {
    && Untouched(start, w) && n <= |w.slots|
    && (forall p :: 0 <= p < n ==> Poised(w, p, key))
    && (forall p :: n <= p < |w.slots| ==> w.slots[p] in {Down, Idle})
  }

  lemma ComesUp(start: World, run: seq<Action>, w: World, n: nat, key: Key) returns (longer: seq<Action>, v: World)
    requires Quiet(start, run, w) && AllPoised(start, w, n, key) && n < |w.slots|
    ensures Quiet(start, longer, v) && AllPoised(start, v, n, key) && v.slots[n] == Idle
  {
    longer, v := run, w;
    if w.slots[n].Down? {
      v := Move(w, n, Idle);
      StillPoised(start, w, n, key);
      QuietStep(start, run, w, Restart(n), v);
      longer := run + [Restart(n)];
    }
  }

  lemma StillPoised(start: World, w: World, n: nat, key: Key)
    requires AllPoised(start, w, n, key) && n < |w.slots|
    ensures AllPoised(start, Move(w, n, Idle), n, key)
  {
    var v := Move(w, n, Idle);
    forall p | 0 <= p < n ensures Poised(v, p, key) {
      assert Poised(w, p, key);
    }
    forall p | 0 <= p < |v.slots| ensures SlotInRange(v, v.slots[p]) {
      assert SlotInRange(w, w.slots[p]);
    }
  }

  /** The world once the slot has the new event at its handler. */
  function TakenUp(w: World, n: nat, e: Event): World
    requires n < |w.slots|
  {
    w.(stream := w.stream + [e], slots := w.slots[n := Busy(Live, [], Handling(w.delivered))],
       delivered := w.delivered + 1, pending := w.pending + {w.delivered})
  }

  lemma TakesUp(start: World, run: seq<Action>, w: World, n: nat, e: Event, key: Key)
    requires Quiet(start, run, w) && Untouched(start, w) && n < |w.slots| && w.slots[n] == Idle
    requires e.key == Some(key) && key != "" && e.eventType in start.handles
    ensures Quiet(start, run + [Publish(e)] + [Read(n, 1)] + [Check(n)], TakenUp(w, n, e))
  {
    var id := w.delivered;
    var there := w.(stream := w.stream + [e]);
    var read := there.(slots := w.slots[n := Busy(Live, [], Checking(id))], delivered := id + 1, pending := w.pending + {id});
    QuietStep(start, run, w, Publish(e), there);
    ReadsOne(there, n, read);
    QuietStep(start, run + [Publish(e)], there, Read(n, 1), read);
    Checks(read, n, TakenUp(w, n, e));
    QuietStep(start, run + [Publish(e)] + [Read(n, 1)], read, Check(n), TakenUp(w, n, e));
  }

  lemma ReadsOne(w: World, n: nat, v: World)
    requires WellFormed(w) && n < |w.slots| && w.slots[n] == Idle && w.delivered + 1 == |w.stream|
    requires Accepts(w, w.delivered) && KeyOf(w, w.delivered).Some?
    requires v == w.(slots := w.slots[n := Busy(Live, [], Checking(w.delivered))], delivered := w.delivered + 1,
                     pending := w.pending + {w.delivered})
    ensures Can(w, Read(n, 1)) && Do(w, Read(n, 1)) == v
  {
    assert Ids(w.delivered, 1) == [w.delivered];
    assert (set id | id in Ids(w.delivered, 1)) == {w.delivered};
  }

  lemma Checks(w: World, n: nat, v: World)
    requires WellFormed(w) && n < |w.slots| && w.slots[n].Busy? && w.marks == map[]
    requires w.slots[n] == Busy(Live, [], Checking(w.slots[n].at.id))
    requires v == w.(slots := w.slots[n := Busy(Live, [], Handling(w.slots[n].at.id))])
    ensures Can(w, Check(n)) && Do(w, Check(n)) == v
  {
  }

  lemma OneMorePoised(start: World, w: World, n: nat, e: Event, key: Key)
    requires AllPoised(start, w, n, key) && n < |w.slots| && e.key == Some(key) && key != ""
    ensures AllPoised(start, TakenUp(w, n, e), n + 1, key)
  {
    var v := TakenUp(w, n, e);
    forall p | 0 <= p < n + 1 ensures Poised(v, p, key) {
      if p < n {
        assert Poised(w, p, key);
      }
    }
    forall p | 0 <= p < |v.slots| ensures SlotInRange(v, v.slots[p]) {
      assert SlotInRange(w, w.slots[p]);
    }
  }

  lemma {:induction false} AllTakeUp(start: World, run: seq<Action>, w: World, n: nat, e: Event, key: Key)
    returns (longer: seq<Action>, v: World)
    requires Quiet(start, run, w) && AllPoised(start, w, n, key)
    requires e.key == Some(key) && key != "" && e.eventType in start.handles
    ensures Quiet(start, longer, v) && AllPoised(start, v, |start.slots|, key)
    decreases |w.slots| - n
  {
    longer, v := run, w;
    if n < |w.slots| {
      longer, v := ComesUp(start, run, w, n, key);
      TakesUp(start, longer, v, n, e, key);
      OneMorePoised(start, v, n, e, key);
      longer, v := AllTakeUp(start, longer + [Publish(e)] + [Read(n, 1)] + [Check(n)], TakenUp(v, n, e), n + 1, e, key);
    }
  }

  // ---- every handler succeeds ----

  /** The first k slots have succeeded, the others are still at the handler. */
  predicate Succeeded(w: World, k: nat, key: Key)
  {
    && WellFormed(w) && k <= |w.slots| && w.wins[key] == k && w.lost[key] == 0
    && forall p :: k <= p < |w.slots| ==> Poised(w, p, key)
  }

  lemma Succeeds(w: World, k: nat, key: Key)
    requires Succeeded(w, k, key) && k < |w.slots|
    ensures Can(w, Return(k, Success)) && Succeeded(Do(w, Return(k, Success)), k + 1, key)
    ensures |Do(w, Return(k, Success)).slots| == |w.slots|
  {
    assert Poised(w, k, key);
    var id, v := w.slots[k].at.id, Do(w, Return(k, Success));
    assert v.slots == w.slots[k := Busy(Live, [], Marking(id))] && v.stream == w.stream && v.delivered == w.delivered;
    assert v.wins == w.wins + multiset{key} && v.lost == w.lost;
    forall p | k + 1 <= p < |v.slots| ensures Poised(v, p, key) {
      assert Poised(w, p, key);
    }
  }

  lemma {:induction false} AllSucceed(start: World, run: seq<Action>, w: World, k: nat, key: Key)
    returns (longer: seq<Action>, v: World)
    requires Quiet(start, run, w) && Succeeded(w, k, key)
    ensures Quiet(start, longer, v) && Succeeded(v, |v.slots|, key) && |v.slots| == |w.slots|
    decreases |w.slots| - k
  {
    longer, v := run, w;
    if k < |w.slots| {
      Succeeds(w, k, key);
      QuietStep(start, run, w, Return(k, Success), Do(w, Return(k, Success)));
      longer, v := AllSucceed(start, run + [Return(k, Success)], Do(w, Return(k, Success)), k + 1, key);
    }
  }

  /** Whatever is in the stream at the start, n slots can handle an event that is accepted n
      times under its key, with nothing crashing, raising or being lost. */
  lemma EverySlotHandlesIt(start: World, e: Event, key: Key) returns (run: seq<Action>, end: World)
    requires Initial(start) && e.key == Some(key) && key != "" && e.eventType in start.handles
    ensures Quiet(start, run, end) && end.wins[key] == |start.slots| && end.lost[key] == 0
  {
    run, end := [], start;
    if |start.slots| > 0 {
      run, end := Drained(start);
      run, end := AllTakeUp(start, run, end, 0, e, key);
      run, end := AllSucceed(start, run, end, 0, key);
    }
  }

  /** The bounds that hold of every run are exactly those from the number of slots on: in
      particular a key is handled at most once, losses apart, for one consumer only. */
  lemma BoundIsExact(start: World, e: Event, key: Key, m: nat)
    requires Initial(start) && e.key == Some(key) && key != "" && e.eventType in start.handles
    ensures (forall run :: CanRun(start, run) ==> Run(start, run).wins[key] <= m + Run(start, run).lost[key])
            <==> |start.slots| <= m
  {
    if |start.slots| <= m {
      forall run | CanRun(start, run) ensures Run(start, run).wins[key] <= m + Run(start, run).lost[key] {
        HandlingsBounded(start, run, key);
      }
    } else {
      var run, end := EverySlotHandlesIt(start, e, key);
      assert CanRun(start, run) && Run(start, run) == end;
    }
  }
}
