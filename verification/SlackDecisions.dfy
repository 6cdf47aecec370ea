/** Deciding gates from Slack (src/infrastructure/slack_bridge/decision_handler.py): any number
    of approvers and rejecters race for a gate under a SETNX lock.

    Each command a handler awaits is one step. A command may raise, before or after the
    server has carried it out, and a handler may die at any await. The one assumption is
    that a lock's time to live does not run out while its holder is still at work. */
module SlackDecisions {
  import opened Wrappers

  type GateId = nat

  datatype Status = Pending | Approved | Rejected | Unknown
  datatype Verdict = Approve | Reject
  datatype Exit = Succeeded | Denied | Busy | NotFound | AlreadyDecided | Raised | Died

  /** The await a handler is at. */
  datatype Pc =
    | Acquiring                  // SETNX on the lock key
    | Expiring                   // EXPIRE on the lock key
    | Reading                    // GET of the gate's status
    | Backing(exit: Exit)        // DELETE of the lock, gate not found or not pending
    | Unwinding                  // DELETE of the lock in the catch-all of the status check
    | Publishing                 // XADD of the decision event
    | Writing                    // SET of the gate's status
    | Releasing(ok: bool)        // DELETE of the lock in the finally block
    | Gone(exit: Exit)

  datatype Handler = Handler(gate: GateId, verdict: Verdict, pc: Pc)

  datatype Lock = Lock(owner: nat, ttl: bool)

  datatype Decision = Decision(gate: GateId, verdict: Verdict)

  datatype Board = Board(
    gates: map<GateId, Status>,
    locks: map<GateId, Lock>,            // the owner is history: the stored value is a constant
    handlers: seq<Handler>,
    decisions: multiset<Decision>,       // history: what has been published
    unrecorded: multiset<GateId>)        // history: decisions published whose status was never written

  datatype Action =
    | Announce(gate: GateId)                   // a new gate, pending
    | Arrive(gate: GateId, verdict: Verdict, allowed: bool)
    | Step(h: nat)                             // the command succeeds
    | Fault(h: nat, effect: bool)              // the command raises; effect: the server had done it
    | Die(h: nat, effect: bool)
    | Lapse(gate: GateId)                      // the lock's time to live runs out

  predicate Inside(pc: Pc)
  {
    !pc.Acquiring? && !pc.Gone?
  }

  function Outcome(v: Verdict): Status
  {
    if v.Approve? then Approved else Rejected
  }

  /** Whether a handler still at work holds the gate's lock. */
  predicate Held(b: Board, g: GateId)
  {
    g in b.locks && b.locks[g].owner < |b.handlers| && Inside(b.handlers[b.locks[g].owner].pc)
    && b.handlers[b.locks[g].owner].gate == g
  }

  predicate Can(b: Board, a: Action)
  {
    match a
    case Announce(g) => g !in b.gates
    case Arrive(_, _, _) => true
    case Step(h) => h < |b.handlers| && !b.handlers[h].pc.Gone?
    case Fault(h, _) => h < |b.handlers| && !b.handlers[h].pc.Gone?
    case Die(h, _) => h < |b.handlers| && !b.handlers[h].pc.Gone?
    case Lapse(g) => g in b.locks && b.locks[g].ttl && !Held(b, g)
  }

  function Goto(b: Board, h: nat, pc: Pc): Board
    requires h < |b.handlers|
  {
    b.(handlers := b.handlers[h := b.handlers[h].(pc := pc)])
  }

  function Unlocked(b: Board, g: GateId): Board
  {
    b.(locks := b.locks - {g})
  }

  /** What the server does with the command that handler h is awaiting. */
  function Effect(b: Board, h: nat): (c: Board)
    requires h < |b.handlers|
    ensures c.handlers == b.handlers
    ensures forall g :: g in c.locks ==> (g in b.locks && c.locks[g].owner == b.locks[g].owner)
                                         || (g == b.handlers[h].gate && c.locks[g].owner == h)
  {
    var g := b.handlers[h].gate;
    var v := b.handlers[h].verdict;
    match b.handlers[h].pc
    case Acquiring => if g in b.locks then b else b.(locks := b.locks[g := Lock(h, false)])
    case Expiring => if g in b.locks then b.(locks := b.locks[g := b.locks[g].(ttl := true)]) else b
    case Backing(_) => Unlocked(b, g)
    case Unwinding => Unlocked(b, g)
    case Publishing => b.(decisions := b.decisions + multiset{Decision(g, v)})
    case Writing => b.(gates := b.gates[g := Outcome(v)])
    case Releasing(_) => Unlocked(b, g)
    case _ => b
  }

  /** Where the handler goes when the command has answered. */
  function Next(b: Board, h: nat): Pc
    requires h < |b.handlers|
  {
    var g := b.handlers[h].gate;
    match b.handlers[h].pc
    case Acquiring => if g in b.locks then Gone(Busy) else Expiring
    case Expiring => Reading
    case Reading =>
      if g !in b.gates then Backing(NotFound)
      else if b.gates[g] != Pending then Backing(AlreadyDecided)
      else Publishing
    case Backing(exit) => Gone(exit)
    case Unwinding => Gone(Raised)
    case Publishing => Writing
    case Writing => Releasing(true)
    case Releasing(ok) => Gone(if ok then Succeeded else Raised)
    case Gone(exit) => Gone(exit)
  }

  /** Where an exception takes it: taking the lock is outside every try block, the status
      check deletes the lock and re-raises, the decision itself runs under a finally. */
  function AfterFault(pc: Pc): Pc
  {
    match pc
    case Reading => Unwinding
    case Backing(_) => Unwinding
    case Publishing => Releasing(false)
    case Writing => Releasing(false)
    case _ => Gone(Raised)
  }

  /** A decision is left unrecorded when its handler turns from publishing or writing with
      the event out and the status not written. */
  function Unrecorded(pc: Pc, effect: bool, g: GateId): multiset<GateId>
  {
    if (pc.Publishing? && effect) || (pc.Writing? && !effect) then multiset{g} else multiset{}
  }

  function Do(b: Board, a: Action): Board
    requires Can(b, a)
  {
    match a
    case Announce(g) => b.(gates := b.gates[g := Pending])
    case Arrive(g, v, allowed) =>
      b.(handlers := b.handlers + [Handler(g, v, if allowed then Acquiring else Gone(Denied))])
    case Step(h) => Goto(Effect(b, h), h, Next(b, h))
    case Fault(h, effect) =>
      var c := if effect then Effect(b, h) else b;
      Goto(c, h, AfterFault(b.handlers[h].pc))
        .(unrecorded := b.unrecorded + Unrecorded(b.handlers[h].pc, effect, b.handlers[h].gate))
    case Die(h, effect) =>
      var c := if effect then Effect(b, h) else b;
      Goto(c, h, Gone(Died))
        .(unrecorded := b.unrecorded + Unrecorded(b.handlers[h].pc, effect, b.handlers[h].gate))
    case Lapse(g) => Unlocked(b, g)
  }

  // ---- the invariant ----

  function Published(b: Board, g: GateId): nat
  {
    b.decisions[Decision(g, Approve)] + b.decisions[Decision(g, Reject)]
  }

  /** The holder has published and is about to write the status. */
  predicate AboutToWrite(b: Board, g: GateId)
  {
    Held(b, g) && b.handlers[b.locks[g].owner].pc.Writing?
  }

  /** What holds of a handler while its gate's lock does its work. */
  predicate HandlerSound(b: Board, h: nat)
    requires h < |b.handlers|
  {
    var x := b.handlers[h];
    && (Inside(x.pc) ==> x.gate in b.locks && b.locks[x.gate].owner == h)
    && (x.pc.Acquiring? ==> x.gate !in b.locks || b.locks[x.gate].owner != h)
    && (Inside(x.pc) ==> b.locks[x.gate].ttl == !x.pc.Expiring?)
    && (x.pc.Publishing? || x.pc.Writing? ==> x.gate in b.gates && b.gates[x.gate] == Pending)
    && (x.pc == Backing(AlreadyDecided) ==> x.gate in b.gates && b.gates[x.gate] != Pending)
    && (x.pc.Backing? ==> x.pc.exit in {NotFound, AlreadyDecided})
    && (Reports(x.pc) ==> x.gate in b.gates && b.gates[x.gate] == Outcome(x.verdict))
  }

  /** Success is reported, or about to be. */
  predicate Reports(pc: Pc)
  {
    pc == Releasing(true) || pc == Gone(Succeeded)
  }

  /** The books of a gate: an undecided gate's published decisions are the unrecorded ones
      and the one about to be written; a decided gate has exactly one more, of its own
      verdict. */
  predicate Balanced(b: Board, g: GateId)
  {
    if g !in b.gates || b.gates[g].Unknown? then Published(b, g) == 0 && b.unrecorded[g] == 0
    else if b.gates[g].Pending? then
      Published(b, g) == b.unrecorded[g] + (if AboutToWrite(b, g) then 1 else 0)
      && (AboutToWrite(b, g) ==> b.decisions[Decision(g, b.handlers[b.locks[g].owner].verdict)] >= 1)
    else
      Published(b, g) == b.unrecorded[g] + 1
      && b.decisions[Decision(g, if b.gates[g].Approved? then Approve else Reject)] >= 1
  }

  /** The lock works: whoever is inside the gate's section owns the lock, and the books
      balance. */
  ghost predicate GateSound(b: Board, g: GateId)
  {
    && (forall h :: 0 <= h < |b.handlers| && b.handlers[h].gate == g ==> HandlerSound(b, h))
    && (g in b.locks ==> b.locks[g].owner < |b.handlers| && b.handlers[b.locks[g].owner].gate == g)
    && Balanced(b, g)
  }

  predicate Decided(b: Board, g: GateId)
  {
    g in b.gates && b.gates[g] != Pending
  }

  /** The gate is decided, and nobody is on the way to decide it again; the lock may be
      anybody's. */
  ghost predicate Closed(b: Board, g: GateId)
  {
    && Decided(b, g) && Balanced(b, g)
    && forall h :: 0 <= h < |b.handlers| && b.handlers[h].gate == g ==>
         && !b.handlers[h].pc.Publishing? && !b.handlers[h].pc.Writing? && b.handlers[h].pc != Backing(Succeeded)
         && (Reports(b.handlers[h].pc) ==> b.gates[g] == Outcome(b.handlers[h].verdict))
  }

  /** The early release raises although the server has deleted the lock. The catch-all then
      deletes the lock once more, by when it may be someone else's. */
  predicate Phantom(b: Board, a: Action, g: GateId)
    requires Can(b, a)
  {
    a.Fault? && a.effect && b.handlers[a.h].pc.Backing? && b.handlers[a.h].gate == g
  }

  /** A phantom release by a handler that found no gate. */
  predicate Stray(b: Board, a: Action, g: GateId)
    requires Can(b, a)
  {
    Phantom(b, a, g) && b.handlers[a.h].pc.exit.NotFound?
  }

  // ---- actions at other gates ----

  /** The three ways a handler moves: its command succeeds, raises, or never returns. */
  predicate MovesHandler(a: Action)
  {
    a.Step? || a.Fault? || a.Die?
  }

  predicate Touches(b: Board, a: Action, g: GateId)
    requires Can(b, a)
  {
    if MovesHandler(a) then b.handlers[a.h].gate == g else a.gate == g
  }

  /** The two boards show the same of one gate. */
  predicate SameGate(b: Board, c: Board, g: GateId)
  {
    && (g in b.gates <==> g in c.gates) && (g in b.gates ==> b.gates[g] == c.gates[g])
    && (g in b.locks <==> g in c.locks) && (g in b.locks ==> b.locks[g] == c.locks[g])
    && |b.handlers| <= |c.handlers|
    && (forall h :: 0 <= h < |b.handlers| ==> b.handlers[h].gate == c.handlers[h].gate)
    && (forall h :: 0 <= h < |b.handlers| && b.handlers[h].gate == g ==> c.handlers[h] == b.handlers[h])
    && (forall h :: |b.handlers| <= h < |c.handlers| ==> c.handlers[h].gate != g)
    && b.decisions[Decision(g, Approve)] == c.decisions[Decision(g, Approve)]
    && b.decisions[Decision(g, Reject)] == c.decisions[Decision(g, Reject)]
    && b.unrecorded[g] == c.unrecorded[g]
  }

  lemma OtherEffect(b: Board, h: nat, g: GateId)
    requires h < |b.handlers| && b.handlers[h].gate != g
    ensures SameGate(b, Effect(b, h), g)
    ensures Effect(b, h).unrecorded == b.unrecorded
  {
    match b.handlers[h].pc {
      case Publishing =>
        assert Decision(b.handlers[h].gate, b.handlers[h].verdict) != Decision(g, Approve);
        assert Decision(b.handlers[h].gate, b.handlers[h].verdict) != Decision(g, Reject);
      case _ =>
    }
  }

  lemma OtherMove(b: Board, c: Board, d: Board, h: nat, pc: Pc, g: GateId)
    requires h < |b.handlers| && b.handlers[h].gate != g && SameGate(b, c, g) && c.handlers == b.handlers
    requires d.handlers == b.handlers[h := b.handlers[h].(pc := pc)] && d.gates == c.gates && d.locks == c.locks
    requires d.decisions == c.decisions && d.unrecorded[g] == b.unrecorded[g]
    ensures SameGate(b, d, g)
  {
  }

  lemma OtherGate(b: Board, a: Action, g: GateId)
    requires Can(b, a) && !Touches(b, a, g)
    ensures SameGate(b, Do(b, a), g)
  {
    if MovesHandler(a) {
      OtherEffect(b, a.h, g);
      var c := if a.Step? || a.effect then Effect(b, a.h) else b;
      OtherMove(b, c, Do(b, a), a.h, Do(b, a).handlers[a.h].pc, g);
    }
  }

  lemma SameGateBalanced(b: Board, c: Board, g: GateId)
    requires SameGate(b, c, g) && Balanced(b, g)
    requires g in b.locks ==> b.locks[g].owner < |b.handlers| && b.handlers[b.locks[g].owner].gate == g
    ensures Balanced(c, g)
  {
    if AboutToWrite(b, g) {
      match b.handlers[b.locks[g].owner].verdict {
        case Approve =>
        case Reject =>
      }
    }
  }

  lemma SameGateSound(b: Board, c: Board, g: GateId)
    requires SameGate(b, c, g) && GateSound(b, g)
    ensures GateSound(c, g)
  {
    SameGateBalanced(b, c, g);
    forall h | 0 <= h < |c.handlers| && c.handlers[h].gate == g ensures HandlerSound(c, h) {
      assert HandlerSound(b, h);
    }
  }

  lemma SameGateClosed(b: Board, c: Board, g: GateId)
    requires SameGate(b, c, g) && Closed(b, g)
    ensures Closed(c, g)
  {
  }

  // ---- the books ----

  lemma OwnGateBalanced(b: Board, a: Action, g: GateId)
    requires GateSound(b, g) && Can(b, a) && MovesHandler(a) && Touches(b, a, g)
    ensures Balanced(Do(b, a), g)
  {
    if b.handlers[a.h].pc.Publishing? {
      PublishingBalanced(b, a, g);
    } else if b.handlers[a.h].pc.Writing? {
      WritingBalanced(b, a, g);
    } else if b.handlers[a.h].pc.Acquiring? || b.handlers[a.h].pc.Gone? {
      OutsideBalanced(b, a, g);
    } else {
      WaitingBalanced(b, a, g);
    }
  }

  /** A handler that is not inside cannot change the books of its gate. */
  lemma OutsideBalanced(b: Board, a: Action, g: GateId)
    requires GateSound(b, g) && Can(b, a) && MovesHandler(a) && Touches(b, a, g) && !Inside(b.handlers[a.h].pc)
    ensures Balanced(Do(b, a), g)
  {
    assert Balanced(b, g);
  }

  lemma WaitingBalanced(b: Board, a: Action, g: GateId)
    requires GateSound(b, g) && Can(b, a) && MovesHandler(a) && Touches(b, a, g) && Inside(b.handlers[a.h].pc)
    requires !b.handlers[a.h].pc.Publishing? && !b.handlers[a.h].pc.Writing?
    ensures Balanced(Do(b, a), g)
  {
    assert HandlerSound(b, a.h) && Balanced(b, g) && !AboutToWrite(b, g);
    assert !AboutToWrite(Do(b, a), g);
  }

  lemma WritingBalanced(b: Board, a: Action, g: GateId)
    requires GateSound(b, g) && Can(b, a) && MovesHandler(a) && Touches(b, a, g) && b.handlers[a.h].pc.Writing?
    ensures Balanced(Do(b, a), g)
  {
    assert HandlerSound(b, a.h) && Balanced(b, g) && AboutToWrite(b, g);
    assert !AboutToWrite(Do(b, a), g);
  }

  lemma PublishingBalanced(b: Board, a: Action, g: GateId)
    requires GateSound(b, g) && Can(b, a) && MovesHandler(a) && Touches(b, a, g) && b.handlers[a.h].pc.Publishing?
    ensures Balanced(Do(b, a), g)
  {
    var c := Do(b, a);
    assert HandlerSound(b, a.h) && Balanced(b, g) && !AboutToWrite(b, g);
    match b.handlers[a.h].verdict {
      case Approve =>
        assert a.Step? || a.effect ==> c.decisions[Decision(g, Approve)] == b.decisions[Decision(g, Approve)] + 1;
      case Reject =>
        assert a.Step? || a.effect ==> c.decisions[Decision(g, Reject)] == b.decisions[Decision(g, Reject)] + 1;
    }
  }

  // ---- the handlers ----

  lemma OwnHandlerSound(b: Board, a: Action, g: GateId)
    requires Can(b, a) && MovesHandler(a) && Touches(b, a, g) && !Phantom(b, a, g) && HandlerSound(b, a.h)
    ensures |Do(b, a).handlers| == |b.handlers| && HandlerSound(Do(b, a), a.h)
  {
    match b.handlers[a.h].pc {
      case Acquiring => case Expiring => case Reading => case Backing(_) => case Unwinding =>
      case Publishing => case Writing => case Releasing(_) => case Gone(_) =>
    }
  }

  /** What a move at a gate leaves to the other handlers there. */
  lemma MoveLeaves(b: Board, a: Action, g: GateId, h: nat)
    requires Can(b, a) && MovesHandler(a) && Touches(b, a, g) && h < |b.handlers| && h != a.h
    requires HandlerSound(b, a.h)
    requires b.handlers[h].gate == g && HandlerSound(b, h)
    ensures |Do(b, a).handlers| == |b.handlers| && HandlerSound(Do(b, a), h)
  {
    var c := Do(b, a);
    assert c.handlers[h] == b.handlers[h];
    if Inside(b.handlers[h].pc) {
      assert !Inside(b.handlers[a.h].pc);
      assert c.gates == b.gates && g in c.locks && c.locks[g] == b.locks[g];
    }
  }

  lemma MoveKeepsLock(b: Board, a: Action, g: GateId)
    requires GateSound(b, g) && Can(b, a) && MovesHandler(a) && Touches(b, a, g)
    ensures var c := Do(b, a);
      g in c.locks ==> c.locks[g].owner < |c.handlers| && c.handlers[c.locks[g].owner].gate == g
  {
  }

  lemma MoveKeepsGate(b: Board, a: Action, g: GateId)
    requires GateSound(b, g) && Can(b, a) && MovesHandler(a) && Touches(b, a, g) && !Phantom(b, a, g)
    ensures GateSound(Do(b, a), g)
  {
    OwnGateBalanced(b, a, g);
    assert HandlerSound(b, a.h);
    OwnHandlerSound(b, a, g);
    MoveKeepsLock(b, a, g);
    forall h | 0 <= h < |b.handlers| && Do(b, a).handlers[h].gate == g ensures HandlerSound(Do(b, a), h) {
      assert HandlerSound(b, a.h);
      if h != a.h {
        MoveLeaves(b, a, g, h);
      }
    }
  }

  lemma ArrivalKeepsGate(b: Board, a: Action, g: GateId)
    requires GateSound(b, g) && Can(b, a) && !MovesHandler(a) && Touches(b, a, g)
    ensures GateSound(Do(b, a), g)
  {
    var c := Do(b, a);
    assert Balanced(b, g);
    if g in b.locks {
      assert HandlerSound(b, b.locks[g].owner);
    }
    forall h | 0 <= h < |c.handlers| && c.handlers[h].gate == g ensures HandlerSound(c, h) {
      if h < |b.handlers| {
        assert HandlerSound(b, h);
      }
    }
  }

  /** Every action but a phantom release at this gate keeps the gate's lock at work and its
      books balanced. */
  lemma ActionKeepsGate(b: Board, a: Action, g: GateId)
    requires GateSound(b, g) && Can(b, a) && !Phantom(b, a, g)
    ensures GateSound(Do(b, a), g)
  {
    if !Touches(b, a, g) {
      OtherGate(b, a, g);
      SameGateSound(b, Do(b, a), g);
    } else if MovesHandler(a) {
      MoveKeepsGate(b, a, g);
    } else {
      ArrivalKeepsGate(b, a, g);
    }
  }

  // ---- decided gates ----

  lemma SoundIsClosed(b: Board, g: GateId)
    requires GateSound(b, g) && Decided(b, g)
    ensures Closed(b, g)
  {
    forall h | 0 <= h < |b.handlers| && b.handlers[h].gate == g
      ensures !b.handlers[h].pc.Publishing? && !b.handlers[h].pc.Writing? && b.handlers[h].pc != Backing(Succeeded)
      ensures Reports(b.handlers[h].pc) ==> b.gates[g] == Outcome(b.handlers[h].verdict) {
      assert HandlerSound(b, h);
    }
  }

  /** At a decided gate a handler can only leave. */
  lemma MoveAtClosed(b: Board, a: Action, g: GateId)
    requires Can(b, a) && MovesHandler(a) && b.handlers[a.h].gate == g && Decided(b, g)
    requires !b.handlers[a.h].pc.Publishing? && !b.handlers[a.h].pc.Writing? && b.handlers[a.h].pc != Backing(Succeeded)
    ensures var c := Do(b, a);
      && c.gates == b.gates && c.decisions == b.decisions && c.unrecorded == b.unrecorded
      && c.handlers == b.handlers[a.h := b.handlers[a.h].(pc := c.handlers[a.h].pc)]
      && !c.handlers[a.h].pc.Publishing? && !c.handlers[a.h].pc.Writing? && c.handlers[a.h].pc != Backing(Succeeded)
      && (Reports(c.handlers[a.h].pc) ==> Reports(b.handlers[a.h].pc))
  {
    LeavingAtClosed(b, a.h, g);
    var c := if a.Step? || a.effect then Effect(b, a.h) else b;
    assert c.gates == b.gates && c.decisions == b.decisions && c.handlers == b.handlers;
  }

  lemma LeavingAtClosed(b: Board, h: nat, g: GateId)
    requires h < |b.handlers| && b.handlers[h].gate == g && Decided(b, g)
    requires !b.handlers[h].pc.Publishing? && !b.handlers[h].pc.Writing? && b.handlers[h].pc != Backing(Succeeded)
    ensures forall pc :: pc == Next(b, h) || pc == AfterFault(b.handlers[h].pc) ==>
      !pc.Publishing? && !pc.Writing? && pc != Backing(Succeeded) && (Reports(pc) ==> Reports(b.handlers[h].pc))
  {
  }

  lemma OwnActionKeepsClosed(b: Board, a: Action, g: GateId)
    requires Closed(b, g) && Can(b, a) && Touches(b, a, g)
    ensures Closed(Do(b, a), g) && Do(b, a).gates[g] == b.gates[g] && Published(Do(b, a), g) == Published(b, g)
  {
    if MovesHandler(a) {
      assert b.handlers[a.h].gate == g;
      MoveAtClosed(b, a, g);
      ClosedAfterMove(b, Do(b, a), a.h, g);
    }
  }

  lemma ClosedAfterMove(b: Board, c: Board, k: nat, g: GateId)
    requires Closed(b, g) && k < |b.handlers| == |c.handlers|
    requires c.gates == b.gates && c.decisions == b.decisions && c.unrecorded == b.unrecorded
    requires c.handlers == b.handlers[k := b.handlers[k].(pc := c.handlers[k].pc)] && b.handlers[k].gate == g
    requires !c.handlers[k].pc.Publishing? && !c.handlers[k].pc.Writing? && c.handlers[k].pc != Backing(Succeeded)
    requires Reports(c.handlers[k].pc) ==> Reports(b.handlers[k].pc)
    ensures Closed(c, g)
  {
  }

  /** No action, faulty or not, phantom releases included, changes a decided gate or publishes
      another decision for it. */
  lemma ActionKeepsClosed(b: Board, a: Action, g: GateId)
    requires Closed(b, g) && Can(b, a)
    ensures Closed(Do(b, a), g) && Do(b, a).gates[g] == b.gates[g] && Published(Do(b, a), g) == Published(b, g)
  {
    if Touches(b, a, g) {
      OwnActionKeepsClosed(b, a, g);
    } else {
      OtherGate(b, a, g);
      SameGateClosed(b, Do(b, a), g);
    }
  }

  /** Until its gate is decided a lock has to work; afterwards only the books matter. */
  ghost predicate GateKept(b: Board, g: GateId)
  {
    if Decided(b, g) then Closed(b, g) else GateSound(b, g)
  }

  /** While the gate is undecided, only a handler that found no gate can release early. */
  lemma UndecidedHasNoPhantom(b: Board, a: Action, g: GateId)
    requires GateSound(b, g) && !Decided(b, g) && Can(b, a)
    ensures Phantom(b, a, g) ==> Stray(b, a, g)
  {
    assert MovesHandler(a) && b.handlers[a.h].gate == g ==> HandlerSound(b, a.h);
  }

  lemma ActionKeepsBooks(b: Board, a: Action, g: GateId)
    requires GateKept(b, g) && Can(b, a) && !Stray(b, a, g)
    ensures GateKept(Do(b, a), g)
  {
    if Decided(b, g) {
      ActionKeepsClosed(b, a, g);
    } else {
      UndecidedHasNoPhantom(b, a, g);
      ActionKeepsGate(b, a, g);
      if Decided(Do(b, a), g) {
        SoundIsClosed(Do(b, a), g);
      }
    }
  }

  // ---- runs ----

  predicate CanRun(b: Board, run: seq<Action>)
    decreases |run|, 0
  {
    run == [] || (CanRun(b, run[..|run| - 1]) && Can(Run(b, run[..|run| - 1]), run[|run| - 1]))
  }

  function Run(b: Board, run: seq<Action>): Board
    requires CanRun(b, run)
    decreases |run|, 1
  {
    if run == [] then b else Do(Run(b, run[..|run| - 1]), run[|run| - 1])
  }

  /** No early release at the gate raised after the server had carried it out. */
  predicate NoPhantom(b: Board, run: seq<Action>, g: GateId)
    requires CanRun(b, run)
    decreases |run|
  {
    run == [] || (NoPhantom(b, run[..|run| - 1], g) && !Phantom(Run(b, run[..|run| - 1]), run[|run| - 1], g))
  }

  /** None did of a handler that had found no gate. */
  predicate NoStray(b: Board, run: seq<Action>, g: GateId)
    requires CanRun(b, run)
    decreases |run|
  {
    run == [] || (NoStray(b, run[..|run| - 1], g) && !Stray(Run(b, run[..|run| - 1]), run[|run| - 1], g))
  }

  /** Nobody tried to decide the gate before it was announced. */
  predicate Timely(b: Board, run: seq<Action>, g: GateId)
    requires CanRun(b, run)
    decreases |run|
  {
    run == [] ||
    (&& Timely(b, run[..|run| - 1], g)
     && (run[|run| - 1].Arrive? && run[|run| - 1].gate == g ==> g in Run(b, run[..|run| - 1]).gates))
  }

  predicate Initial(b: Board)
  {
    && b.locks == map[] && b.handlers == [] && b.decisions == multiset{} && b.unrecorded == multiset{}
    && forall g :: g in b.gates ==> b.gates[g] in {Pending, Unknown}
  }

  lemma {:induction false} RunKeepsGate(b: Board, run: seq<Action>, g: GateId)
    requires GateSound(b, g) && CanRun(b, run) && NoPhantom(b, run, g)
    ensures GateSound(Run(b, run), g)
    decreases |run|
  {
    if run != [] {
      RunKeepsGate(b, run[..|run| - 1], g);
      ActionKeepsGate(Run(b, run[..|run| - 1]), run[|run| - 1], g);
    }
  }

  lemma {:induction false} RunKeepsBooks(b: Board, run: seq<Action>, g: GateId)
    requires GateKept(b, g) && CanRun(b, run) && NoStray(b, run, g)
    ensures GateKept(Run(b, run), g)
    decreases |run|
  {
    if run != [] {
      RunKeepsBooks(b, run[..|run| - 1], g);
      ActionKeepsBooks(Run(b, run[..|run| - 1]), run[|run| - 1], g);
    }
  }

  /** At most one handler is inside the critical section of a gate. */
  lemma MutualExclusion(b: Board, h: nat, k: nat)
    requires h < |b.handlers| && k < |b.handlers| && b.handlers[h].gate == b.handlers[k].gate
    requires GateSound(b, b.handlers[h].gate) && Inside(b.handlers[h].pc) && Inside(b.handlers[k].pc)
    ensures h == k
  {
    assert HandlerSound(b, h) && HandlerSound(b, k);
  }

  /** In every run without a phantom release at the gate, at most one handler is inside the
      gate's critical section. */
  lemma ExclusionInEveryRun(start: Board, run: seq<Action>, h: nat, k: nat)
    requires Initial(start) && CanRun(start, run)
    requires h < |Run(start, run).handlers| && k < |Run(start, run).handlers|
    requires Run(start, run).handlers[h].gate == Run(start, run).handlers[k].gate
    requires NoPhantom(start, run, Run(start, run).handlers[h].gate)
    requires Inside(Run(start, run).handlers[h].pc) && Inside(Run(start, run).handlers[k].pc)
    ensures h == k
  {
    var g := Run(start, run).handlers[h].gate;
    assert GateSound(start, g);
    RunKeepsGate(start, run, g);
    MutualExclusion(Run(start, run), h, k);
  }

  lemma BooksInEveryRun(start: Board, run: seq<Action>, g: GateId)
    requires Initial(start) && CanRun(start, run) && NoStray(start, run, g)
    ensures GateKept(Run(start, run), g)
  {
    assert GateSound(start, g);
    RunKeepsBooks(start, run, g);
  }

  /** In every run in which no handler that found no gate makes a phantom release there, the
      decisions published for a gate number at most one more than those left unrecorded; and
      when none was left unrecorded, a decided gate has exactly one published decision, and
      its stored status is that decision's. */
  lemma GateDecidedOnce(start: Board, run: seq<Action>, g: GateId)
    requires Initial(start) && CanRun(start, run) && NoStray(start, run, g)
    ensures Published(Run(start, run), g) <= 1 + Run(start, run).unrecorded[g]
    ensures var b := Run(start, run);
      b.unrecorded[g] == 0 && g in b.gates && b.gates[g] in {Approved, Rejected} ==>
        forall v :: b.decisions[Decision(g, v)] == if b.gates[g] == Outcome(v) then 1 else 0
  {
    BooksInEveryRun(start, run, g);
    SettledBooks(Run(start, run), g);
  }

  /** Whoever reported success has the verdict stored. */
  lemma SuccessIsRecorded(start: Board, run: seq<Action>, h: nat)
    requires Initial(start) && CanRun(start, run) && h < |Run(start, run).handlers|
    requires NoStray(start, run, Run(start, run).handlers[h].gate)
    requires Run(start, run).handlers[h].pc == Gone(Succeeded)
    ensures var b := Run(start, run); var x := b.handlers[h];
      x.gate in b.gates && b.gates[x.gate] == Outcome(x.verdict)
  {
    var b := Run(start, run);
    var g := b.handlers[h].gate;
    BooksInEveryRun(start, run, g);
    if !Decided(b, g) {
      assert HandlerSound(b, h);
    }
  }

  lemma SettledBooks(b: Board, g: GateId)
    requires Balanced(b, g)
    ensures Published(b, g) <= 1 + b.unrecorded[g]
    ensures b.unrecorded[g] == 0 && g in b.gates && b.gates[g] in {Approved, Rejected} ==>
      forall v :: b.decisions[Decision(g, v)] == if b.gates[g] == Outcome(v) then 1 else 0
  {
    if b.unrecorded[g] == 0 && g in b.gates && b.gates[g] in {Approved, Rejected} {
      forall v ensures b.decisions[Decision(g, v)] == if b.gates[g] == Outcome(v) then 1 else 0 {
        match v {
          case Approve =>
          case Reject =>
        }
      }
    }
  }

  lemma {:induction false} ClosedForGood(b: Board, run: seq<Action>, g: GateId)
    requires Closed(b, g) && CanRun(b, run)
    ensures Closed(Run(b, run), g) && Run(b, run).gates[g] == b.gates[g]
    ensures Published(Run(b, run), g) == Published(b, g)
    decreases |run|
  {
    if run != [] {
      ClosedForGood(b, run[..|run| - 1], g);
      ActionKeepsClosed(Run(b, run[..|run| - 1]), run[|run| - 1], g);
    }
  }

  /** A decision is final: once the gate is decided, no continuation, whatever faults and
      phantom releases it holds, changes the status or publishes another decision. */
  lemma DecidedForGood(start: Board, run: seq<Action>, g: GateId, rest: seq<Action>)
    requires Initial(start) && CanRun(start, run) && NoStray(start, run, g)
    requires Decided(Run(start, run), g) && CanRun(Run(start, run), rest)
    ensures var b, c := Run(start, run), Run(Run(start, run), rest);
      g in c.gates && c.gates[g] == b.gates[g] && Published(c, g) == Published(b, g)
  {
    BooksInEveryRun(start, run, g);
    ClosedForGood(Run(start, run), rest, g);
  }

  // ---- which gates are safe from strays ----

  /** Nobody is at the gate without having seen it. */
  predicate Seen(b: Board, g: GateId)
  {
    forall h :: 0 <= h < |b.handlers| && b.handlers[h].gate == g ==>
      g in b.gates && b.handlers[h].pc != Backing(NotFound)
  }

  lemma ActionKeepsSeen(b: Board, a: Action, g: GateId)
    requires Seen(b, g) && Can(b, a) && (a.Arrive? && a.gate == g ==> g in b.gates)
    ensures Seen(Do(b, a), g) && !Stray(b, a, g)
  {
    var c := Do(b, a);
    GatesStay(b, a, g);
    forall h | 0 <= h < |c.handlers| && c.handlers[h].gate == g
      ensures g in c.gates && c.handlers[h].pc != Backing(NotFound) {
      if h < |b.handlers| {
        MoveSees(b, a, h);
      }
    }
  }

  lemma GatesStay(b: Board, a: Action, g: GateId)
    requires Can(b, a)
    ensures g in b.gates ==> g in Do(b, a).gates
  {
  }

  lemma MoveSees(b: Board, a: Action, h: nat)
    requires Can(b, a) && h < |b.handlers| && b.handlers[h].gate in b.gates && b.handlers[h].pc != Backing(NotFound)
    ensures h < |Do(b, a).handlers| && Do(b, a).handlers[h].gate == b.handlers[h].gate
    ensures Do(b, a).handlers[h].pc != Backing(NotFound)
  {
  }

  /** A gate that nobody tried to decide too early has no strays, whatever else goes wrong. */
  lemma {:induction false} TimelyHasNoStray(start: Board, run: seq<Action>, g: GateId)
    requires Seen(start, g) && CanRun(start, run) && Timely(start, run, g)
    ensures NoStray(start, run, g) && Seen(Run(start, run), g)
    decreases |run|
  {
    if run != [] {
      TimelyHasNoStray(start, run[..|run| - 1], g);
      ActionKeepsSeen(Run(start, run[..|run| - 1]), run[|run| - 1], g);
    }
  }

  lemma {:induction false} KnownIsTimely(start: Board, run: seq<Action>, g: GateId)
    requires g in start.gates && CanRun(start, run)
    ensures Timely(start, run, g) && g in Run(start, run).gates
    decreases |run|
  {
    if run != [] {
      KnownIsTimely(start, run[..|run| - 1], g);
      GatesStay(Run(start, run[..|run| - 1]), run[|run| - 1], g);
    }
  }

  // ---- a gate announced too late ----

  ghost predicate Leads(start: Board, run: seq<Action>, b: Board)
  {
    CanRun(start, run) && Run(start, run) == b
  }

  lemma LeadsOn(start: Board, run: seq<Action>, b: Board, a: Action, c: Board)
    requires Leads(start, run, b) && Can(b, a) && Do(b, a) == c
    ensures Leads(start, run + [a], c)
  {
    assert (run + [a])[..|run + [a]| - 1] == run;
  }

  /** A handler takes the free lock of a gate and goes to read its status. */
  lemma Locks(start: Board, run: seq<Action>, b: Board, g: GateId, v: Verdict) returns (longer: seq<Action>)
    requires Leads(start, run, b) && g !in b.locks
    ensures Leads(start, longer, b.(handlers := b.handlers + [Handler(g, v, Reading)],
                                    locks := b.locks[g := Lock(|b.handlers|, true)]))
  {
    var n := |b.handlers|;
    var b1 := b.(handlers := b.handlers + [Handler(g, v, Acquiring)]);
    var b2 := b.(handlers := b.handlers + [Handler(g, v, Expiring)], locks := b.locks[g := Lock(n, false)]);
    var b3 := b.(handlers := b.handlers + [Handler(g, v, Reading)], locks := b.locks[g := Lock(n, true)]);
    LeadsOn(start, run, b, Arrive(g, v, true), b1);
    LockStep(b1, b2, n, Expiring);
    LeadsOn(start, run + [Arrive(g, v, true)], b1, Step(n), b2);
    LockStep(b2, b3, n, Reading);
    LeadsOn(start, run + [Arrive(g, v, true)] + [Step(n)], b2, Step(n), b3);
    longer := run + [Arrive(g, v, true)] + [Step(n)] + [Step(n)];
  }

  lemma LockStep(b: Board, c: Board, n: nat, pc: Pc)
    requires n < |b.handlers| && c.handlers == b.handlers[n := b.handlers[n].(pc := pc)]
    requires c == b.(handlers := c.handlers, locks := c.locks)
    requires || (b.handlers[n].pc.Acquiring? && pc.Expiring? && b.handlers[n].gate !in b.locks
                 && c.locks == b.locks[b.handlers[n].gate := Lock(n, false)])
             || (b.handlers[n].pc.Expiring? && pc.Reading? && b.handlers[n].gate in b.locks
                 && c.locks == b.locks[b.handlers[n].gate := b.locks[b.handlers[n].gate].(ttl := true)])
    ensures Can(b, Step(n)) && Do(b, Step(n)) == c
  {
  }

  /** The scene of the late announcement: three handlers at g, with the given counters. */
  function Scene(start: Board, g: GateId, status: Option<Status>, lock: Option<Lock>, pcs: seq<Pc>,
                 decisions: multiset<Decision>): Board
  {
    Board(if status.Some? then start.gates[g := status.value] else start.gates,
          if lock.Some? then map[g := lock.value] else map[],
          seq(|pcs|, i requires 0 <= i < |pcs| => Handler(g, if i == 2 then Reject else Approve, pcs[i])),
          decisions, multiset{})
  }

  /** A handler reads the missing gate, and its early DELETE takes effect and raises. */
  lemma StrayDeletes(start: Board, g: GateId) returns (run: seq<Action>)
    requires Initial(start) && g !in start.gates
    ensures Leads(start, run, Scene(start, g, None, None, [Unwinding], multiset{}))
  {
    assert start == Scene(start, g, None, None, [], multiset{});
    assert Leads(start, [], start);
    run := Locks(start, [], start, g, Approve);
    var s1 := Scene(start, g, None, Some(Lock(0, true)), [Reading], multiset{});
    var s2 := Scene(start, g, None, Some(Lock(0, true)), [Backing(NotFound)], multiset{});
    var s3 := Scene(start, g, None, None, [Unwinding], multiset{});
    assert start.handlers + [Handler(g, Approve, Reading)] == s1.handlers;
    assert Do(s1, Step(0)).handlers == s2.handlers;
    LeadsOn(start, run, s1, Step(0), s2);
    run := run + [Step(0)];
    assert Do(s2, Fault(0, true)).handlers == s3.handlers && s2.locks - {g} == s3.locks;
    LeadsOn(start, run, s2, Fault(0, true), s3);
    run := run + [Fault(0, true)];
  }

  /** Then the gate is announced, and an approver goes in. */
  lemma StrayIsOut(start: Board, g: GateId) returns (run: seq<Action>)
    requires Initial(start) && g !in start.gates
    ensures Leads(start, run, Scene(start, g, Some(Pending), Some(Lock(1, true)), [Unwinding, Reading], multiset{}))
  {
    run := StrayDeletes(start, g);
    var s3 := Scene(start, g, None, None, [Unwinding], multiset{});
    var s4 := Scene(start, g, Some(Pending), None, [Unwinding], multiset{});
    LeadsOn(start, run, s3, Announce(g), s4);
    run := run + [Announce(g)];
    run := Locks(start, run, s4, g, Approve);
    assert s4.handlers + [Handler(g, Approve, Reading)]
        == Scene(start, g, Some(Pending), Some(Lock(1, true)), [Unwinding, Reading], multiset{}).handlers;
  }

  /** The catch-all deletes the approver's lock, and a rejecter goes in beside it. */
  lemma StrayLetsTwoIn(start: Board, g: GateId) returns (run: seq<Action>)
    requires Initial(start) && g !in start.gates
    ensures Leads(start, run, Scene(start, g, Some(Pending), Some(Lock(2, true)), [Gone(Raised), Publishing, Publishing], multiset{}))
  {
    run := StrayIsOut(start, g);
    var s1 := Scene(start, g, Some(Pending), Some(Lock(1, true)), [Unwinding, Reading], multiset{});
    var s2 := Scene(start, g, Some(Pending), Some(Lock(1, true)), [Unwinding, Publishing], multiset{});
    var s3 := Scene(start, g, Some(Pending), None, [Gone(Raised), Publishing], multiset{});
    var s4 := Scene(start, g, Some(Pending), Some(Lock(2, true)), [Gone(Raised), Publishing, Reading], multiset{});
    var s5 := Scene(start, g, Some(Pending), Some(Lock(2, true)), [Gone(Raised), Publishing, Publishing], multiset{});
    LeadsOn(start, run, s1, Step(1), s2);
    run := run + [Step(1)];
    LeadsOn(start, run, s2, Step(0), s3);
    run := run + [Step(0)];
    run := Locks(start, run, s3, g, Reject);
    assert s3.handlers + [Handler(g, Reject, Reading)] == s4.handlers;
    LeadsOn(start, run, s4, Step(2), s5);
    run := run + [Step(2)];
  }

  /** Both publish. */
  lemma StrayPublishesTwice(start: Board, g: GateId) returns (run: seq<Action>)
    requires Initial(start) && g !in start.gates
    ensures Leads(start, run, Scene(start, g, Some(Pending), Some(Lock(2, true)), [Gone(Raised), Writing, Writing], Both(g)))
  {
    run := StrayLetsTwoIn(start, g);
    var one := multiset{Decision(g, Approve)};
    var s1 := Scene(start, g, Some(Pending), Some(Lock(2, true)), [Gone(Raised), Publishing, Publishing], multiset{});
    var s2 := Scene(start, g, Some(Pending), Some(Lock(2, true)), [Gone(Raised), Writing, Publishing], one);
    var s3 := Scene(start, g, Some(Pending), Some(Lock(2, true)), [Gone(Raised), Writing, Writing], Both(g));
    Publishes(s1, s2, 1);
    LeadsOn(start, run, s1, Step(1), s2);
    run := run + [Step(1)];
    Publishes(s2, s3, 2);
    LeadsOn(start, run, s2, Step(2), s3);
    run := run + [Step(2)];
  }

  lemma Publishes(b: Board, c: Board, h: nat)
    requires h < |b.handlers| && b.handlers[h].pc.Publishing?
    requires c.handlers == b.handlers[h := b.handlers[h].(pc := Writing)]
    requires c.decisions == b.decisions + multiset{Decision(b.handlers[h].gate, b.handlers[h].verdict)}
    requires c == b.(handlers := c.handlers, decisions := c.decisions)
    ensures Can(b, Step(h)) && Do(b, Step(h)) == c
  {
  }

  function Both(g: GateId): multiset<Decision>
  {
    multiset{Decision(g, Approve), Decision(g, Reject)}
  }

  /** One of the two handlers inside writes its verdict. */
  lemma Overwrites(start: Board, g: GateId, status: Status, h: nat, pcs: seq<Pc>, after: seq<Pc>)
    requires |pcs| == 3 && h < 3 && pcs[h].Writing? && after == pcs[h := Releasing(true)]
    ensures var b := Scene(start, g, Some(status), Some(Lock(2, true)), pcs, Both(g));
      var c := Scene(start, g, Some(if h == 2 then Rejected else Approved), Some(Lock(2, true)), after, Both(g));
      Can(b, Step(h)) && Do(b, Step(h)) == c
  {
    var b := Scene(start, g, Some(status), Some(Lock(2, true)), pcs, Both(g));
    var c := Scene(start, g, Some(if h == 2 then Rejected else Approved), Some(Lock(2, true)), after, Both(g));
    assert b.handlers[h] == Handler(g, if h == 2 then Reject else Approve, Writing);
    assert Effect(b, h) == b.(gates := c.gates);
    assert b.handlers[h := b.handlers[h].(pc := Releasing(true))] == c.handlers;
  }

  /** And both write: an approval is stored, then a rejection over it. */
  lemma StrayDecidesTwice(start: Board, g: GateId) returns (run: seq<Action>, approved: Board, rejected: Board)
    requires Initial(start) && g !in start.gates
    ensures Leads(start, run, approved) && Can(approved, Step(2)) && Do(approved, Step(2)) == rejected
    ensures Leads(start, run + [Step(2)], rejected)
    ensures g in approved.gates && approved.gates[g] == Approved && g in rejected.gates && rejected.gates[g] == Rejected
    ensures Published(rejected, g) == 2 && rejected.unrecorded[g] == 0
  {
    run := StrayPublishesTwice(start, g);
    var s3 := Scene(start, g, Some(Pending), Some(Lock(2, true)), [Gone(Raised), Writing, Writing], Both(g));
    approved := Scene(start, g, Some(Approved), Some(Lock(2, true)), [Gone(Raised), Releasing(true), Writing], Both(g));
    rejected := Scene(start, g, Some(Rejected), Some(Lock(2, true)), [Gone(Raised), Releasing(true), Releasing(true)], Both(g));
    Overwrites(start, g, Pending, 1, [Gone(Raised), Writing, Writing], [Gone(Raised), Releasing(true), Writing]);
    Overwrites(start, g, Approved, 2, [Gone(Raised), Releasing(true), Writing], [Gone(Raised), Releasing(true), Releasing(true)]);
    LeadsOn(start, run, s3, Step(1), approved);
    run := run + [Step(1)];
    LeadsOn(start, run, approved, Step(2), rejected);
  }

  /** The bound on published decisions holds of every run, phantom releases included, exactly
      for the gates that are there from the start. */
  lemma BoundHoldsExactlyForKnownGates(start: Board, g: GateId)
    requires Initial(start)
    ensures (forall run :: CanRun(start, run) ==> Published(Run(start, run), g) <= 1 + Run(start, run).unrecorded[g])
            <==> g in start.gates
  {
    if g in start.gates {
      forall run | CanRun(start, run) ensures Published(Run(start, run), g) <= 1 + Run(start, run).unrecorded[g] {
        KnownIsTimely(start, run, g);
        TimelyHasNoStray(start, run, g);
        GateDecidedOnce(start, run, g);
      }
    } else {
      var run, approved, rejected := StrayDecidesTwice(start, g);
      assert CanRun(start, run + [Step(2)]) && Run(start, run + [Step(2)]) == rejected;
    }
  }

  /** The handler has left, and the lock it took is still there. */
  predicate LeftBehind(c: Board, h: nat, g: GateId)
    requires h < |c.handlers|
  {
    c.handlers[h].pc.Gone? && g in c.locks && c.locks[g].owner == h
  }

  /** Exactly which exits leave the lock behind: an EXPIRE that raises, whether or not it
      took effect; a final DELETE that raises without having taken effect; a death, unless
      the DELETE it interrupts had taken effect; and a SETNX that takes the lock but raises
      or is never answered. Every other exit releases it. */
  lemma LockLeftBehindExactly(b: Board, a: Action)
    requires Can(b, a) && MovesHandler(a) && GateSound(b, b.handlers[a.h].gate)
    ensures |Do(b, a).handlers| == |b.handlers|
    ensures LeftBehind(Do(b, a), a.h, b.handlers[a.h].gate) <==> Abandons(b, a)
  {
    assert HandlerSound(b, a.h);
  }

  predicate Abandons(b: Board, a: Action)
    requires Can(b, a) && MovesHandler(a)
  {
    var pc := b.handlers[a.h].pc;
    match a
    case Fault(_, effect) =>
      pc.Expiring? || ((pc.Unwinding? || pc.Releasing?) && !effect)
      || (pc.Acquiring? && effect && b.handlers[a.h].gate !in b.locks)
    case Die(_, effect) =>
      (Inside(pc) && !(effect && (pc.Backing? || pc.Unwinding? || pc.Releasing?)))
      || (pc.Acquiring? && effect && b.handlers[a.h].gate !in b.locks)
    case _ => false
  }

  /** A phantom release is what exclusion cannot survive: from any state in which one
      happens, the next handler to arrive gets into the section beside the first. */
  lemma PhantomBreaksExclusion(b: Board, a: Action, v: Verdict)
    requires Can(b, a) && a.Fault? && GateSound(b, b.handlers[a.h].gate) && Phantom(b, a, b.handlers[a.h].gate)
    ensures var g, k := b.handlers[a.h].gate, |b.handlers|;
      var d := Do(Do(b, a), Arrive(g, v, true));
      Can(d, Step(k)) && BothInside(Do(d, Step(k)), a.h, k, g)
  {
    assert HandlerSound(b, a.h);
    NewcomerEnters(Do(b, a), a.h, b.handlers[a.h].gate, v);
  }

  predicate BothInside(b: Board, h: nat, k: nat, g: GateId)
  {
    h < |b.handlers| && k < |b.handlers| && h != k && Inside(b.handlers[h].pc) && Inside(b.handlers[k].pc)
    && b.handlers[h].gate == g && b.handlers[k].gate == g
  }

  lemma NewcomerEnters(c: Board, h: nat, g: GateId, v: Verdict)
    requires h < |c.handlers| && Inside(c.handlers[h].pc) && c.handlers[h].gate == g && g !in c.locks
    ensures var d := Do(c, Arrive(g, v, true));
      Can(d, Step(|c.handlers|)) && BothInside(Do(d, Step(|c.handlers|)), h, |c.handlers|, g)
  {
  }

  // ---- the lock that never goes away ----

  /** The gate's lock has no time to live, and nobody is inside. */
  predicate Stuck(b: Board, g: GateId)
  {
    g in b.locks && !b.locks[g].ttl && NobodyInside(b, g)
  }

  predicate NobodyInside(b: Board, g: GateId)
  {
    forall h :: 0 <= h < |b.handlers| && b.handlers[h].gate == g ==> !Inside(b.handlers[h].pc)
  }

  /** A handler leaves between taking the lock and giving it a time to live: its EXPIRE raises,
      or it dies there, without effect; or its SETNX has taken the free lock, but raises or is
      never answered. */
  predicate Sticks(b: Board, a: Action, g: GateId)
    requires Can(b, a)
  {
    (a.Fault? || a.Die?) && b.handlers[a.h].gate == g &&
    ((b.handlers[a.h].pc.Expiring? && !a.effect) || (b.handlers[a.h].pc.Acquiring? && a.effect && g !in b.locks))
  }

  /** When a handler leaves a lock at work, nobody is left inside. */
  lemma LeaverLeavesNobody(b: Board, c: Board, h: nat, g: GateId)
    requires GateSound(b, g) && h < |b.handlers| && b.handlers[h].gate == g
    requires Inside(b.handlers[h].pc) || g !in b.locks
    requires exists exit :: c.handlers == b.handlers[h := b.handlers[h].(pc := Gone(exit))]
    ensures NobodyInside(c, g)
  {
    forall k | 0 <= k < |c.handlers| && c.handlers[k].gate == g ensures !Inside(c.handlers[k].pc) {
      assert HandlerSound(b, h) && HandlerSound(b, k);
    }
  }

  lemma SticksLeavesStuck(b: Board, a: Action, g: GateId)
    requires Can(b, a) && GateSound(b, g) && Sticks(b, a, g)
    ensures Stuck(Do(b, a), g)
  {
    var c, h := Do(b, a), a.h;
    assert HandlerSound(b, h);
    assert c.handlers == b.handlers[h := b.handlers[h].(pc := Gone(if a.Die? then Died else Raised))];
    LeaverLeavesNobody(b, c, h, g);
  }

  /** Any other move leaves no lock, or one with a time to live, or somebody inside. */
  lemma OtherMovesDoNotStick(b: Board, a: Action, g: GateId)
    requires Can(b, a) && GateSound(b, g) && MovesHandler(a) && Touches(b, a, g) && !Sticks(b, a, g) && !Stuck(b, g)
    ensures !Stuck(Do(b, a), g)
  {
    var c, h := Do(b, a), a.h;
    assert HandlerSound(b, h) && |c.handlers| == |b.handlers| && c.handlers[h].gate == g;
    if Inside(b.handlers[h].pc) {
      assert g in c.locks && !c.locks[g].ttl ==> Inside(c.handlers[h].pc);
    } else if c.locks != b.locks {
      assert Inside(c.handlers[h].pc);
    } else if g in b.locks && !b.locks[g].ttl {
      StillInside(b, c, h, g);
    }
  }

  lemma StillInside(b: Board, c: Board, h: nat, g: GateId)
    requires !NobodyInside(b, g) && h < |b.handlers| == |c.handlers| && !Inside(b.handlers[h].pc)
    requires forall k :: 0 <= k < |b.handlers| && k != h ==> c.handlers[k] == b.handlers[k]
    ensures !NobodyInside(c, g)
  {
    var k :| 0 <= k < |b.handlers| && b.handlers[k].gate == g && Inside(b.handlers[k].pc);
    assert c.handlers[k] == b.handlers[k];
  }

  lemma SameGateStuck(b: Board, c: Board, g: GateId)
    requires SameGate(b, c, g)
    ensures Stuck(b, g) <==> Stuck(c, g)
  {
    if NobodyInside(c, g) {
      forall h | 0 <= h < |b.handlers| && b.handlers[h].gate == g ensures !Inside(b.handlers[h].pc) {
        assert c.handlers[h] == b.handlers[h];
      }
    }
  }

  lemma ArrivalsDoNotStick(b: Board, a: Action, g: GateId)
    requires Can(b, a) && !MovesHandler(a) && Touches(b, a, g) && !Stuck(b, g)
    ensures !Stuck(Do(b, a), g)
  {
    if !a.Lapse? && g in b.locks && !b.locks[g].ttl {
      var k :| 0 <= k < |b.handlers| && b.handlers[k].gate == g && Inside(b.handlers[k].pc);
      assert Do(b, a).handlers[k] == b.handlers[k];
    }
  }

  /** Exactly these steps leave the gate stuck. */
  lemma SticksExactly(b: Board, a: Action, g: GateId)
    requires Can(b, a) && GateSound(b, g) && !Stuck(b, g)
    ensures Stuck(Do(b, a), g) <==> Sticks(b, a, g)
  {
    if Sticks(b, a, g) {
      SticksLeavesStuck(b, a, g);
    } else if !Touches(b, a, g) {
      OtherGate(b, a, g);
      SameGateStuck(b, Do(b, a), g);
    } else if MovesHandler(a) {
      OtherMovesDoNotStick(b, a, g);
    } else {
      ArrivalsDoNotStick(b, a, g);
    }
  }

  lemma OwnActionKeepsStuck(b: Board, a: Action, g: GateId)
    requires Can(b, a) && Stuck(b, g) && Touches(b, a, g)
    ensures Stuck(Do(b, a), g) && Published(Do(b, a), g) == Published(b, g)
    ensures g in b.gates ==> g in Do(b, a).gates && Do(b, a).gates[g] == b.gates[g]
  {
    var c := Do(b, a);
    assert c.locks == b.locks && c.decisions == b.decisions;
    if MovesHandler(a) {
      assert c.gates == b.gates && !Inside(c.handlers[a.h].pc);
    }
  }

  lemma StuckStays(b: Board, a: Action, g: GateId)
    requires Can(b, a) && Stuck(b, g)
    ensures Stuck(Do(b, a), g) && Published(Do(b, a), g) == Published(b, g)
    ensures g in b.gates ==> g in Do(b, a).gates && Do(b, a).gates[g] == b.gates[g]
  {
    if Touches(b, a, g) {
      OwnActionKeepsStuck(b, a, g);
    } else {
      OtherGate(b, a, g);
    }
  }

  /** From then on nobody can ever decide the gate: in every continuation, whatever its faults,
      its status and its published decisions stay as they are. */
  lemma {:induction false} StuckForGood(b: Board, run: seq<Action>, g: GateId)
    requires Stuck(b, g) && CanRun(b, run)
    ensures Stuck(Run(b, run), g) && Published(Run(b, run), g) == Published(b, g)
    ensures g in b.gates ==> g in Run(b, run).gates && Run(b, run).gates[g] == b.gates[g]
    decreases |run|
  {
    if run != [] {
      StuckForGood(b, run[..|run| - 1], g);
      StuckStays(Run(b, run[..|run| - 1]), run[|run| - 1], g);
    }
  }

  /** Some step of the run stuck the gate. */
  predicate SomeStepSticks(b: Board, run: seq<Action>, g: GateId)
    requires CanRun(b, run)
    decreases |run|
  {
    run != [] &&
    (SomeStepSticks(b, run[..|run| - 1], g) || Sticks(Run(b, run[..|run| - 1]), run[|run| - 1], g))
  }

  /** In every run without a phantom release at the gate, the gate is stuck at the end, and so
      for good, if and only if some handler has left between SETNX and EXPIRE. (After a
      phantom release one handler's EXPIRE may give another's lock its time to live.) */
  lemma {:induction false} StuckExactly(start: Board, run: seq<Action>, g: GateId)
    requires Initial(start) && CanRun(start, run) && NoPhantom(start, run, g)
    ensures Stuck(Run(start, run), g) <==> SomeStepSticks(start, run, g)
    decreases |run|
  {
    if run != [] {
      var before, a := Run(start, run[..|run| - 1]), run[|run| - 1];
      StuckExactly(start, run[..|run| - 1], g);
      assert GateSound(start, g);
      RunKeepsGate(start, run[..|run| - 1], g);
      if Stuck(before, g) {
        StuckStays(before, a, g);
      } else {
        SticksExactly(before, a, g);
      }
    }
  }
}
