/** Who may decide a gate, and whether the handlers' reports are true
    (src/infrastructure/slack_bridge/decision_handler.py:192-389): laws over every run of the
    lock machine, with all its faults, deaths and phantom releases. */
module Permissions {
  import opened SlackDecisions

  /** The arrivals along a run, in their order: the h-th is handler h. */
  function Arrivals(run: seq<Action>): seq<Action>
  {
    if run == [] then []
    else Arrivals(run[..|run| - 1]) + if run[|run| - 1].Arrive? then [run[|run| - 1]] else []
  }

  /** Some command of the handler raised. */
  predicate Raising(run: seq<Action>, h: nat)
  {
    run != [] && (Raising(run[..|run| - 1], h) || (run[|run| - 1].Fault? && run[|run| - 1].h == h))
  }

  predicate Dying(run: seq<Action>, h: nat)
  {
    run != [] && (Dying(run[..|run| - 1], h) || (run[|run| - 1].Die? && run[|run| - 1].h == h))
  }

  /** Those who arrived with the role to give the gate this verdict. */
  function LetIn(arrivals: seq<Action>, g: GateId, v: Verdict): set<nat>
  {
    set h: nat | h < |arrivals| && arrivals[h] == Arrive(g, v, true)
  }

  // ---- the laws, as an invariant ----

  /** The handler is who arrived; without the role it is turned away at once. */
  predicate Admitted(x: Handler, a: Action)
  {
    a.Arrive? && x.gate == a.gate && x.verdict == a.verdict && (x.pc == Gone(Denied) <==> !a.allowed)
    && (x.pc.Backing? ==> x.pc.exit in {NotFound, AlreadyDecided})
  }

  predicate AllAdmitted(b: Board, arrivals: seq<Action>)
  {
    |arrivals| == |b.handlers| && forall h :: 0 <= h < |b.handlers| ==> Admitted(b.handlers[h], arrivals[h])
  }

  /** A lock is owned by somebody who was let in, and is past taking it. */
  predicate OwnersAdmitted(b: Board)
  {
    forall g :: g in b.locks ==>
      && b.locks[g].owner < |b.handlers| && b.handlers[b.locks[g].owner].gate == g
      && !b.handlers[b.locks[g].owner].pc.Acquiring? && b.handlers[b.locks[g].owner].pc != Gone(Denied)
  }

  /** Those who may have published the verdict. */
  function Publishers(b: Board, g: GateId, v: Verdict): set<nat>
  {
    set h: nat | h < |b.handlers| && b.handlers[h].gate == g && b.handlers[h].verdict == v && MayHavePublished(b.handlers[h].pc)
  }

  predicate MayHavePublished(pc: Pc)
  {
    pc.Writing? || pc.Releasing? || pc in {Gone(Succeeded), Gone(Raised), Gone(Died)}
  }

  /** The publications of a gate and verdict are by as many handlers. */
  ghost predicate PublicationsOwned(b: Board)
  {
    forall g, v :: b.decisions[Decision(g, v)] <= |Publishers(b, g, v)|
  }

  function FirstStatus(start: Board, g: GateId): Status
  {
    if g in start.gates then start.gates[g] else Pending
  }

  /** Statuses come from the start, from an announcement, or from a handler that was let in
      with that verdict. */
  ghost predicate StatusOwned(b: Board, start: Board, arrivals: seq<Action>)
  {
    && start.gates.Keys <= b.gates.Keys
    && forall g :: g in b.gates ==>
         b.gates[g] == FirstStatus(start, g) || exists v :: b.gates[g] == Outcome(v) && LetIn(arrivals, g, v) != {}
  }

  /** What the handler reports is so. */
  predicate Truthful(b: Board, start: Board, run: seq<Action>, h: nat)
    requires h < |b.handlers|
  {
    var x := b.handlers[h];
    && (x.pc == Gone(Busy) ==> exists k :: 0 <= k < |b.handlers| && k != h && b.handlers[k].gate == x.gate)
    && (x.pc in {Backing(NotFound), Gone(NotFound)} ==> x.gate !in start.gates)
    && (x.pc in {Backing(AlreadyDecided), Gone(AlreadyDecided)} ==> Decided(b, x.gate))
    && (x.pc in {Unwinding, Releasing(false), Gone(Raised)} ==> Raising(run, h))
    && (x.pc == Gone(Died) ==> Dying(run, h))
  }

  ghost predicate Lawful(b: Board, start: Board, run: seq<Action>)
  {
    && AllAdmitted(b, Arrivals(run)) && OwnersAdmitted(b) && PublicationsOwned(b)
    && StatusOwned(b, start, Arrivals(run))
    && forall h :: 0 <= h < |b.handlers| ==> Truthful(b, start, run, h)
  }

  // ---- every step keeps them ----

  lemma HandlersAfter(b: Board, a: Action)
    requires Can(b, a)
    ensures var c := Do(b, a);
      if MovesHandler(a) then c.handlers == b.handlers[a.h := b.handlers[a.h].(pc := c.handlers[a.h].pc)]
      else if a.Arrive? then c.handlers == b.handlers + [Handler(a.gate, a.verdict, if a.allowed then Acquiring else Gone(Denied))]
      else c.handlers == b.handlers
  {
  }

  lemma PcAfter(b: Board, a: Action)
    requires Can(b, a) && MovesHandler(a) && b.handlers[a.h].pc != Backing(Denied) && b.handlers[a.h].pc != Backing(Busy)
    ensures var pc := Do(b, a).handlers[a.h].pc;
      && pc != Gone(Denied) && !pc.Acquiring? && (pc.Backing? ==> pc.exit in {NotFound, AlreadyDecided})
      && (MayHavePublished(b.handlers[a.h].pc) ==> MayHavePublished(pc))
  {
    assert b.handlers[a.h].pc.Writing? || b.handlers[a.h].pc.Releasing? ==> MayHavePublished(Do(b, a).handlers[a.h].pc);
  }

  lemma StepAdmits(b: Board, a: Action, arrivals: seq<Action>)
    requires Can(b, a) && AllAdmitted(b, arrivals)
    ensures AllAdmitted(Do(b, a), arrivals + if a.Arrive? then [a] else [])
  {
    HandlersAfter(b, a);
    if MovesHandler(a) {
      assert Admitted(b.handlers[a.h], arrivals[a.h]);
      PcAfter(b, a);
    }
  }

  lemma LocksAfter(b: Board, a: Action, g: GateId)
    requires Can(b, a) && g in Do(b, a).locks
    ensures (g in b.locks && Do(b, a).locks[g].owner == b.locks[g].owner)
            || (MovesHandler(a) && b.handlers[a.h].gate == g && Do(b, a).locks[g].owner == a.h)
  {
  }

  lemma StepKeepsOwners(b: Board, a: Action, arrivals: seq<Action>)
    requires Can(b, a) && AllAdmitted(b, arrivals) && OwnersAdmitted(b)
    ensures OwnersAdmitted(Do(b, a))
  {
    var c := Do(b, a);
    HandlersAfter(b, a);
    if MovesHandler(a) {
      assert Admitted(b.handlers[a.h], arrivals[a.h]);
      PcAfter(b, a);
    }
    forall g | g in c.locks
      ensures c.locks[g].owner < |c.handlers| && c.handlers[c.locks[g].owner].gate == g
      ensures !c.handlers[c.locks[g].owner].pc.Acquiring? && c.handlers[c.locks[g].owner].pc != Gone(Denied) {
      LocksAfter(b, a, g);
    }
  }

  lemma Larger(s: set<nat>, t: set<nat>)
    requires s <= t
    ensures |s| <= |t|
    ensures forall h :: h in t && h !in s ==> |s| + 1 <= |t|
  {
    assert t == s + (t - s);
    forall h | h in t && h !in s ensures |s| + 1 <= |t| {
      assert h in t - s;
    }
  }

  lemma PublishersAfter(b: Board, a: Action, arrivals: seq<Action>, g: GateId, v: Verdict)
    requires Can(b, a) && AllAdmitted(b, arrivals)
    ensures Publishers(b, g, v) <= Publishers(Do(b, a), g, v)
  {
    HandlersAfter(b, a);
    if MovesHandler(a) {
      assert Admitted(b.handlers[a.h], arrivals[a.h]);
      PcAfter(b, a);
    }
    forall h | h in Publishers(b, g, v) ensures h in Publishers(Do(b, a), g, v) {
    }
  }

  /** A step publishes at most one decision, the handler's own, at its only await there. */
  lemma DecisionsAfter(b: Board, a: Action)
    requires Can(b, a)
    ensures Do(b, a).decisions == b.decisions
            || (MovesHandler(a) && b.handlers[a.h].pc.Publishing? && MayHavePublished(Do(b, a).handlers[a.h].pc)
                && Do(b, a).decisions == b.decisions + multiset{Decision(b.handlers[a.h].gate, b.handlers[a.h].verdict)})
  {
  }

  lemma StepKeepsPublications(b: Board, a: Action, arrivals: seq<Action>)
    requires Can(b, a) && AllAdmitted(b, arrivals) && PublicationsOwned(b)
    ensures PublicationsOwned(Do(b, a))
  {
    var c := Do(b, a);
    HandlersAfter(b, a);
    DecisionsAfter(b, a);
    forall g, v ensures c.decisions[Decision(g, v)] <= |Publishers(c, g, v)| {
      PublishersAfter(b, a, arrivals, g, v);
      Larger(Publishers(b, g, v), Publishers(c, g, v));
      if c.decisions[Decision(g, v)] != b.decisions[Decision(g, v)] {
        var h: nat := a.h;
        assert h in Publishers(c, g, v) && h !in Publishers(b, g, v);
      }
    }
  }

  lemma GatesAfter(b: Board, a: Action)
    requires Can(b, a)
    ensures || Do(b, a).gates == b.gates
            || (a.Announce? && a.gate !in b.gates && Do(b, a).gates == b.gates[a.gate := Pending])
            || (MovesHandler(a) && b.handlers[a.h].pc.Writing?
                && Do(b, a).gates == b.gates[b.handlers[a.h].gate := Outcome(b.handlers[a.h].verdict)])
  {
    if MovesHandler(a) {
      EffectOnGates(b, a.h);
      assert Do(b, a).gates == if a.Step? || a.effect then Effect(b, a.h).gates else b.gates;
    }
  }

  lemma EffectOnGates(b: Board, h: nat)
    requires h < |b.handlers|
    ensures Effect(b, h).gates == if b.handlers[h].pc.Writing?
                                  then b.gates[b.handlers[h].gate := Outcome(b.handlers[h].verdict)] else b.gates
  {
  }

  lemma LetInGrows(arrivals: seq<Action>, more: seq<Action>, g: GateId, v: Verdict)
    ensures LetIn(arrivals, g, v) <= LetIn(arrivals + more, g, v)
  {
  }

  lemma StepKeepsStatus(b: Board, a: Action, start: Board, arrivals: seq<Action>)
    requires Can(b, a) && AllAdmitted(b, arrivals) && StatusOwned(b, start, arrivals)
    ensures StatusOwned(Do(b, a), start, arrivals + if a.Arrive? then [a] else [])
  {
    var c, more := Do(b, a), if a.Arrive? then [a] else [];
    GatesAfter(b, a);
    forall g | g in c.gates
      ensures c.gates[g] == FirstStatus(start, g)
              || exists v :: c.gates[g] == Outcome(v) && LetIn(arrivals + more, g, v) != {} {
      if g in b.gates && c.gates[g] == b.gates[g] {
        if v :| b.gates[g] == Outcome(v) && LetIn(arrivals, g, v) != {} {
          LetInGrows(arrivals, more, g, v);
          assert LetIn(arrivals + more, g, v) != {};
        }
      } else if !a.Announce? {
        assert Admitted(b.handlers[a.h], arrivals[a.h]);
        var h: nat := a.h;
        assert h in LetIn(arrivals + more, g, b.handlers[h].verdict);
      }
    }
  }

  lemma DecidedStays(b: Board, a: Action, g: GateId)
    requires Can(b, a) && Decided(b, g)
    ensures Decided(Do(b, a), g)
  {
    GatesAfter(b, a);
  }

  lemma RunsOn(run: seq<Action>)
    requires run != []
    ensures forall h :: Raising(run[..|run| - 1], h) ==> Raising(run, h)
    ensures forall h :: Dying(run[..|run| - 1], h) ==> Dying(run, h)
  {
  }

  lemma OthersStayTruthful(b: Board, start: Board, run: seq<Action>, h: nat)
    requires run != [] && Can(b, run[|run| - 1]) && h < |b.handlers|
    requires Truthful(b, start, run[..|run| - 1], h) && (MovesHandler(run[|run| - 1]) ==> run[|run| - 1].h != h)
    ensures h < |Do(b, run[|run| - 1]).handlers| && Truthful(Do(b, run[|run| - 1]), start, run, h)
  {
    var a, c := run[|run| - 1], Do(b, run[|run| - 1]);
    HandlersAfter(b, a);
    RunsOn(run);
    if Decided(b, b.handlers[h].gate) {
      DecidedStays(b, a, b.handlers[h].gate);
    }
    if b.handlers[h].pc == Gone(Busy) {
      var k :| 0 <= k < |b.handlers| && k != h && b.handlers[k].gate == b.handlers[h].gate;
      assert c.handlers[k].gate == b.handlers[k].gate;
    }
  }

  /** Why a handler ends up where it does. */
  lemma ReasonsFor(b: Board, a: Action)
    requires Can(b, a) && MovesHandler(a)
    ensures var x, pc := b.handlers[a.h], Do(b, a).handlers[a.h].pc;
      && (pc == Gone(Busy) ==> (x.gate in b.locks && x.pc.Acquiring?) || x.pc == Backing(Busy))
      && (pc == Backing(NotFound) ==> x.gate !in b.gates)
      && (pc == Gone(NotFound) ==> x.pc == Backing(NotFound))
      && (pc == Backing(AlreadyDecided) ==> Decided(b, x.gate))
      && (pc == Gone(AlreadyDecided) ==> x.pc == Backing(AlreadyDecided))
      && (pc in {Unwinding, Releasing(false), Gone(Raised)} ==>
            a.Fault? || x.pc in {Unwinding, Releasing(false), Backing(Raised)})
      && (pc == Gone(Died) ==> a.Die? || x.pc == Backing(Died))
  {
  }

  lemma MovedStaysTruthful(b: Board, start: Board, run: seq<Action>, arrivals: seq<Action>)
    requires run != [] && Can(b, run[|run| - 1]) && MovesHandler(run[|run| - 1])
    requires AllAdmitted(b, arrivals) && OwnersAdmitted(b) && start.gates.Keys <= b.gates.Keys
    requires Truthful(b, start, run[..|run| - 1], run[|run| - 1].h)
    ensures Truthful(Do(b, run[|run| - 1]), start, run, run[|run| - 1].h)
  {
    var a, c := run[|run| - 1], Do(b, run[|run| - 1]);
    HandlersAfter(b, a);
    ReasonsFor(b, a);
    RunsOn(run);
    assert Admitted(b.handlers[a.h], arrivals[a.h]);
    if Decided(b, b.handlers[a.h].gate) {
      DecidedStays(b, a, b.handlers[a.h].gate);
    }
    if c.handlers[a.h].pc == Gone(Busy) {
      var k := b.locks[b.handlers[a.h].gate].owner;
      assert k != a.h && c.handlers[k].gate == c.handlers[a.h].gate;
    }
  }

  lemma StepKeepsLaws(b: Board, start: Board, run: seq<Action>)
    requires run != [] && Lawful(b, start, run[..|run| - 1]) && Can(b, run[|run| - 1])
    ensures Lawful(Do(b, run[|run| - 1]), start, run)
  {
    var a, c, arrivals := run[|run| - 1], Do(b, run[|run| - 1]), Arrivals(run[..|run| - 1]);
    StepAdmits(b, a, arrivals);
    StepKeepsOwners(b, a, arrivals);
    StepKeepsPublications(b, a, arrivals);
    StepKeepsStatus(b, a, start, arrivals);
    HandlersAfter(b, a);
    forall h | 0 <= h < |c.handlers| ensures Truthful(c, start, run, h) {
      if h < |b.handlers| {
        if MovesHandler(a) && a.h == h {
          MovedStaysTruthful(b, start, run, arrivals);
        } else {
          OthersStayTruthful(b, start, run, h);
        }
      }
    }
  }

  lemma {:induction false} LawsHold(start: Board, run: seq<Action>)
    requires Initial(start) && CanRun(start, run)
    ensures Lawful(Run(start, run), start, run)
    decreases |run|
  {
    if run != [] {
      LawsHold(start, run[..|run| - 1]);
      StepKeepsLaws(Run(start, run[..|run| - 1]), start, run);
    }
  }

  // ---- the results ----

  /** Whoever arrived without the role is turned away for good, and owns no lock. */
  lemma DeniedForGood(start: Board, run: seq<Action>, h: nat)
    requires Initial(start) && CanRun(start, run) && h < |Arrivals(run)|
    ensures |Run(start, run).handlers| == |Arrivals(run)| && Arrivals(run)[h].Arrive?
    ensures Run(start, run).handlers[h].pc == Gone(Denied) <==> !Arrivals(run)[h].allowed
    ensures !Arrivals(run)[h].allowed ==> forall g :: g in Run(start, run).locks ==> Run(start, run).locks[g].owner != h
  {
    LawsHold(start, run);
    assert Admitted(Run(start, run).handlers[h], Arrivals(run)[h]);
  }

  /** The decisions published for a gate with a verdict are at most as many as the arrivals,
      with the role, for that verdict. */
  lemma OnlyTheAllowedPublish(start: Board, run: seq<Action>, g: GateId, v: Verdict)
    requires Initial(start) && CanRun(start, run)
    ensures Run(start, run).decisions[Decision(g, v)] <= |LetIn(Arrivals(run), g, v)|
  {
    LawsHold(start, run);
    var b := Run(start, run);
    forall h | h in Publishers(b, g, v) ensures h in LetIn(Arrivals(run), g, v) {
      assert Admitted(b.handlers[h], Arrivals(run)[h]);
    }
    Larger(Publishers(b, g, v), LetIn(Arrivals(run), g, v));
  }

  /** A gate has another status than at first only if somebody with the role came to give it
      that verdict. */
  lemma OnlyTheAllowedDecide(start: Board, run: seq<Action>, g: GateId)
    requires Initial(start) && CanRun(start, run) && g in Run(start, run).gates
    ensures var s := Run(start, run).gates[g];
      s == FirstStatus(start, g) || exists v :: s == Outcome(v) && LetIn(Arrivals(run), g, v) != {}
  {
    LawsHold(start, run);
  }

  /** A handler that reports the gate decided is right, and the gate stays so; one that
      reports no gate came to one that was not there from the start; one that reports it
      busy was not alone; and an exception or a death is the handler's own. */
  lemma ReportsAreTrue(start: Board, run: seq<Action>, h: nat)
    requires Initial(start) && CanRun(start, run) && h < |Run(start, run).handlers|
    ensures var b := Run(start, run); var x := b.handlers[h];
      && (x.pc == Gone(AlreadyDecided) ==> x.gate in b.gates && b.gates[x.gate] != Pending)
      && (x.pc == Gone(NotFound) ==> x.gate !in start.gates)
      && (x.pc == Gone(Busy) ==> exists k :: 0 <= k < |b.handlers| && k != h && b.handlers[k].gate == x.gate)
      && (x.pc == Gone(Raised) ==> Raising(run, h))
      && (x.pc == Gone(Died) ==> Dying(run, h))
  {
    LawsHold(start, run);
    assert Truthful(Run(start, run), start, run, h);
  }
}
