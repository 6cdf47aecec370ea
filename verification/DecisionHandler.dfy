/** The decision handler as it is written (src/infrastructure/slack_bridge/decision_handler.py:166-389):
    the lock, the status check with its catch-all, and the decision under its finally
    block. Every command is a step of the lock machine, whatever other handlers do
    meanwhile and whichever commands raise. */
module DecisionHandlers {
  import opened Wrappers
  import opened SlackDecisions

  datatype Reply = Answers | Raises(effect: bool)

  /** What other handlers do while this one awaits, and how its command comes back. */
  datatype Interlude = Interlude(others: seq<Action>, reply: Reply)

  predicate NotOf(h: nat, a: Action)
  {
    MovesHandler(a) ==> a.h != h
  }

  lemma OthersKeepHandler(b: Board, h: nat, a: Action)
    requires h < |b.handlers| && Can(b, a) && NotOf(h, a)
    ensures h < |Do(b, a).handlers| && Do(b, a).handlers[h] == b.handlers[h]
  {
  }

  lemma Extend(start: Board, run: seq<Action>, a: Action)
    requires CanRun(start, run) && Can(Run(start, run), a)
    ensures CanRun(start, run + [a]) && Run(start, run + [a]) == Do(Run(start, run), a)
  {
    assert (run + [a])[..|run + [a]| - 1] == run;
  }

  /** How many of the handler's own commands have answered along a run, and how many raised. */
  function CountAnswered(run: seq<Action>, h: nat): nat
  {
    if run == [] then 0 else CountAnswered(run[..|run| - 1], h) + if run[|run| - 1] == Step(h) then 1 else 0
  }

  function CountRaised(run: seq<Action>, h: nat): nat
  {
    if run == [] then 0
    else CountRaised(run[..|run| - 1], h) + if run[|run| - 1].Fault? && run[|run| - 1].h == h then 1 else 0
  }

  lemma OneMore(run: seq<Action>, a: Action, h: nat)
    ensures CountAnswered(run + [a], h) == CountAnswered(run, h) + if a == Step(h) then 1 else 0
    ensures CountRaised(run + [a], h) == CountRaised(run, h) + if a.Fault? && a.h == h then 1 else 0
  {
    assert (run + [a])[..|run|] == run;
  }

  /** The handler has sent so many more commands that answered, and so many that raised. */
  predicate Sent(before: seq<Action>, after: seq<Action>, h: nat, answered: nat, raised: nat)
  {
    && before <= after && CountAnswered(after, h) == CountAnswered(before, h) + answered
    && CountRaised(after, h) == CountRaised(before, h) + raised
  }

  class DecisionHandler {
    var board: Board
    var awaits: seq<Interlude>
    const me: nat
    ghost const start: Board
    ghost var trace: seq<Action>

    constructor (b: Board, h: nat, schedule: seq<Interlude>)
      requires h < |b.handlers|
      ensures Valid() && board == start == b && me == h && awaits == schedule && trace == []
    {
      board, awaits, me := b, schedule, h;
      start, trace := b, [];
    }

    /** The board is where the machine's run along the trace leads. */
    ghost predicate Valid()
      reads this
    {
      me < |board.handlers| && CanRun(start, trace) && board == Run(start, trace)
    }

    predicate IsAt(pc: Pc)
      reads this
    {
      me < |board.handlers| && board.handlers[me].pc == pc
    }

    method Perform(a: Action)
      requires Valid() && Can(board, a)
      modifies this`board, this`trace
      ensures trace == old(trace) + [a] && board == Do(old(board), a)
      ensures CanRun(start, trace) && board == Run(start, trace)
      ensures Sent(old(trace), trace, me, if a == Step(me) then 1 else 0, if a.Fault? && a.h == me then 1 else 0)
    {
      Extend(start, trace, a);
      OneMore(trace, a, me);
      board := Do(board, a);
      trace := trace + [a];
    }

    method Await() returns (reply: Reply)
      requires Valid()
      modifies this
      ensures Valid() && Sent(old(trace), trace, me, 0, 0) && board.handlers[me] == old(board).handlers[me]
    {
      if awaits == [] {
        return Answers;
      }
      var others := awaits[0].others;
      reply := awaits[0].reply;
      awaits := awaits[1..];
      for i := 0 to |others|
        invariant Valid() && Sent(old(trace), trace, me, 0, 0) && board.handlers[me] == old(board).handlers[me]
      {
        if NotOf(me, others[i]) && Can(board, others[i]) {
          OthersKeepHandler(board, me, others[i]);
          Perform(others[i]);
        }
      }
    }

    /** A command whose answer the code does not look at. */
    method Command(ghost pc: Pc) returns (raises: bool)
      requires Valid() && IsAt(pc) && !pc.Gone? && !pc.Acquiring? && !pc.Reading?
      modifies this
      ensures Valid() && Sent(old(trace), trace, me, if raises then 0 else 1, if raises then 1 else 0)
      ensures raises ==> IsAt(AfterFault(pc))
      ensures !raises ==> IsAt(Follows(pc))
    {
      var reply := Await();
      raises := reply.Raises?;
      Perform(if raises then Fault(me, reply.effect) else Step(me));
    }

    /** `_acquire_lock`: SETNX, and EXPIRE when it was granted. */
    method AcquireLock() returns (raises: bool, granted: bool)
      requires Valid() && IsAt(Acquiring)
      modifies this
      ensures Valid() && old(trace) <= trace
      ensures raises ==> CountRaised(trace, me) == CountRaised(old(trace), me) + 1
      ensures !raises ==> Sent(old(trace), trace, me, if granted then 2 else 1, 0)
      ensures raises ==> IsAt(Gone(Raised))
      ensures !raises ==> IsAt(if granted then Reading else Gone(Busy))
    {
      granted := false;
      var reply := Await();
      raises := reply.Raises?;
      if raises {
        Perform(Fault(me, reply.effect));
        return;
      }
      granted := board.handlers[me].gate !in board.locks;
      Perform(Step(me));
      if granted {
        raises := Command(Expiring);
      }
    }

    /** `_check_gate_status_and_lock`: None when the gate is pending and the lock is held,
        otherwise the exception it ends with. */
    method CheckGateStatusAndLock() returns (exception: Option<Exit>)
      requires Valid() && IsAt(Acquiring)
      modifies this
      ensures Valid() && old(trace) <= trace
      ensures exception.None? ==> IsAt(Publishing) && Sent(old(trace), trace, me, 3, 0)
      ensures exception.Some? ==> IsAt(Gone(exception.value)) && EndsAs(old(trace), trace, me, exception.value)
      ensures exception != Some(Succeeded) && exception != Some(Denied)
    {
      ghost var before := trace;
      var raises, granted := AcquireLock();
      if raises {
        return Some(Raised);
      }
      if !granted {
        return Some(Busy);
      }
      exception := CheckStatus(before);
    }

    /** The try block of the status check, with the lock held. */
    method CheckStatus(ghost before: seq<Action>) returns (exception: Option<Exit>)
      requires Valid() && IsAt(Reading) && Sent(before, trace, me, 2, 0)
      modifies this
      ensures Valid() && old(trace) <= trace
      ensures exception.None? ==> IsAt(Publishing) && Sent(before, trace, me, 3, 0)
      ensures exception.Some? ==> IsAt(Gone(exception.value)) && EndsAs(before, trace, me, exception.value)
      ensures exception.Some? ==> exception.value in {Raised, NotFound, AlreadyDecided}
    {
      var raises, stored := ReadStatus();
      if !raises {
        if stored == Some(Pending) {
          return None;
        }
        exception := Some(if stored.None? then NotFound else AlreadyDecided);
        raises := Command(Backing(exception.value));
        if !raises {
          return;
        }
      }
      raises := Command(Unwinding);
      exception := Some(Raised);
    }

    /** GET of the gate's status. */
    method ReadStatus() returns (raises: bool, stored: Option<Status>)
      requires Valid() && IsAt(Reading)
      modifies this
      ensures Valid() && Sent(old(trace), trace, me, if raises then 0 else 1, if raises then 1 else 0)
      ensures raises ==> IsAt(Unwinding)
      ensures !raises ==> IsAt(if stored == Some(Pending) then Publishing
                               else Backing(if stored.None? then NotFound else AlreadyDecided))
    {
      stored := None;
      var reply := Await();
      raises := reply.Raises?;
      if raises {
        Perform(Fault(me, reply.effect));
      } else {
        var g := board.handlers[me].gate;
        stored := if g in board.gates then Some(board.gates[g]) else None;
        Perform(Step(me));
      }
    }

    /** `handle_approval` and `handle_rejection`, which differ only in the verdict. Without the
        role nothing is sent. */
    method HandleDecision(allowed: bool) returns (exit: Exit)
      requires Valid() && IsAt(if allowed then Acquiring else Gone(Denied))
      modifies this
      ensures Valid() && IsAt(Gone(exit)) && EndsAs(old(trace), trace, me, exit)
      ensures exit.Denied? <==> !allowed
      ensures !allowed ==> board == old(board)
    {
      if !allowed {
        return Denied;
      }
      var exception := CheckGateStatusAndLock();
      if exception.Some? {
        return exception.value;
      }
      exit := PublishAndWrite();
    }

    /** The decision itself, with its finally block. */
    method PublishAndWrite() returns (exit: Exit)
      requires Valid() && IsAt(Publishing)
      modifies this
      ensures Valid() && old(trace) <= trace && IsAt(Gone(exit)) && exit in {Raised, Succeeded}
      ensures exit.Raised? ==> CountRaised(trace, me) > CountRaised(old(trace), me)
      ensures exit.Succeeded? ==> Sent(old(trace), trace, me, 3, 0)
    {
      var raised := Command(Publishing);
      if raised {
        raised := Command(Releasing(false));
        return Raised;
      }
      exit := Write();
    }

    method Write() returns (exit: Exit)
      requires Valid() && IsAt(Writing)
      modifies this
      ensures Valid() && old(trace) <= trace && IsAt(Gone(exit)) && exit in {Raised, Succeeded}
      ensures exit.Raised? ==> CountRaised(trace, me) > CountRaised(old(trace), me)
      ensures exit.Succeeded? ==> Sent(old(trace), trace, me, 2, 0)
    {
      var raised := Command(Writing);
      var releaseRaised := Command(Releasing(!raised));
      exit := if raised || releaseRaised then Raised else Succeeded;
    }
  }

  /** The commands behind each way to end: none without the role; SETNX alone at a busy lock;
      with EXPIRE, GET and DELETE at a gate that is missing or decided; the same three, XADD,
      SET and DELETE for a success; and one that raised for an exception. */
  predicate EndsAs(before: seq<Action>, after: seq<Action>, h: nat, exit: Exit)
  {
    before <= after &&
    match exit
    case Denied => after == before
    case Busy => Sent(before, after, h, 1, 0)
    case NotFound => Sent(before, after, h, 4, 0)
    case AlreadyDecided => Sent(before, after, h, 4, 0)
    case Succeeded => Sent(before, after, h, 6, 0)
    case Raised => CountRaised(after, h) > CountRaised(before, h)
    case Died => false
  }

  /** Where a command whose answer is not looked at leads. */
  function Follows(pc: Pc): Pc
  {
    match pc
    case Expiring => Reading
    case Backing(exit) => Gone(exit)
    case Unwinding => Gone(Raised)
    case Publishing => Writing
    case Writing => Releasing(true)
    case Releasing(ok) => Gone(if ok then Succeeded else Raised)
    case other => other
  }
}
