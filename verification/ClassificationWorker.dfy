/** The worker and the client side as they are written (src/workers/classification_worker.py:123-172,
    205-281, 387-409), over the shared queue and job records: every command is a step of the
    machine, whatever clients and other workers do at the awaits. */
module ClassificationWorkers {
  import opened Wrappers
  import opened Classification

  /** What others do at an await, and whether someone has asked this worker to stop. */
  datatype Interlude = Interlude(others: seq<Action>, stops: bool)

  /** An action of another worker or client: neither of worker w nor of pusher p. */
  predicate NotOf(w: nat, p: Option<nat>, a: Action)
  {
    match a
    case Submit(_, _, _, _) => true
    case Push(q) => p != Some(q)
    case _ => a.w != w
  }

  /** A worker's own actions along a run. */
  function Own(run: seq<Action>, w: nat): seq<Action>
  {
    if run == [] then []
    else
      var a := run[|run| - 1];
      Own(run[..|run| - 1], w) + if IsOf(a, w) then [a] else []
  }

  predicate IsOf(a: Action, w: nat)
  {
    !a.Submit? && !a.Push? && a.w == w
  }

  lemma OwnGrows(run: seq<Action>, a: Action, w: nat)
    ensures Own(run + [a], w) == Own(run, w) + if IsOf(a, w) then [a] else []
  {
    assert (run + [a])[..|run|] == run;
  }

  /** The commands one item takes, given what the classifier says. */
  function Script(w: nat, item: Item, verdict: Verdict): seq<Action>
  {
    [Update(w), Classify(w, verdict)]
    + if verdict.Transient? && item.retries < MAX_RETRIES then [Sleep(w), Requeue(w)] else [Mark(w)]
  }

  lemma OthersKeepPlaces(f: Farm, w: nat, p: Option<nat>, a: Action)
    requires Can(f, a) && NotOf(w, p, a) && w < |f.flights| && (p.Some? ==> p.value < |f.pushers|)
    ensures w < |Do(f, a).flights| && Do(f, a).flights[w] == f.flights[w]
    ensures p.Some? ==> p.value < |Do(f, a).pushers| && Do(f, a).pushers[p.value] == f.pushers[p.value]
  {
  }

  lemma IdeasStay(f: Farm, a: Action)
    requires Can(f, a)
    ensures SameIdeas(f, Do(f, a))
  {
  }

  /** Records stay, and so does what was submitted. */
  predicate SameIdeas(f: Farm, g: Farm)
  {
    forall j :: j in f.jobs ==> j in g.jobs && g.jobs[j].ideas == f.jobs[j].ideas && g.jobs[j].total == f.jobs[j].total
                                && g.jobs[j].results.Some? == f.jobs[j].results.Some?
  }

  /** The record of a job with these ideas, with a list of results if it is a batch. */
  predicate Submitted(f: Farm, job: JobId, ideas: seq<Idea>, batch: bool)
  {
    job in f.jobs && f.jobs[job].ideas == ideas && f.jobs[job].total == |ideas| && f.jobs[job].results.Some? == batch
  }

  predicate Pushing(f: Farm, p: nat, pusher: Pusher)
  {
    p < |f.pushers| && f.pushers[p] == pusher
  }

  lemma Extend(start: Farm, run: seq<Action>, a: Action)
    requires CanRun(start, run) && Can(Run(start, run), a)
    ensures CanRun(start, run + [a]) && Run(start, run + [a]) == Do(Run(start, run), a)
  {
    assert (run + [a])[..|run + [a]| - 1] == run;
  }

  class ClassificationWorker {
    var farm: Farm
    var awaits: seq<Interlude>
    var running: bool
    const me: nat
    ghost const start: Farm
    ghost var trace: seq<Action>
    ghost var own: seq<Action>          // this worker's actions along the trace

    constructor (f: Farm, w: nat, schedule: seq<Interlude>)
      requires Sound(f) && w < |f.flights|
      ensures Valid() && farm == start == f && me == w && awaits == schedule && own == trace == [] && !running
    {
      farm, awaits, running, me := f, schedule, false, w;
      start, trace, own := f, [], [];
    }

    ghost predicate Valid()
      reads this
    {
      && me < |farm.flights| && Sound(start)
      && CanRun(start, trace) && farm == Run(start, trace) && own == Own(trace, me)
    }

    method Perform(a: Action)
      requires Valid() && Can(farm, a)
      modifies this`farm, this`trace, this`own
      ensures Valid() && farm == Do(old(farm), a) && trace == old(trace) + [a]
      ensures SameIdeas(old(farm), farm)
      ensures own == old(own) + if IsOf(a, me) then [a] else []
    {
      Extend(start, trace, a);
      IdeasStay(farm, a);
      OwnGrows(trace, a, me);
      farm := Do(farm, a);
      trace := trace + [a];
      own := own + if IsOf(a, me) then [a] else [];
    }

    /** Others run; this worker's place and the given pusher stay as they are. */
    method Await(pushing: Option<nat>)
      requires Valid() && (pushing.Some? ==> pushing.value < |farm.pushers|)
      modifies this
      ensures Valid() && SameIdeas(old(farm), farm) && own == old(own)
      ensures farm.flights[me] == old(farm.flights[me])
      ensures pushing.Some? ==> pushing.value < |farm.pushers| && farm.pushers[pushing.value] == old(farm.pushers[pushing.value])
      ensures old(awaits) == [] ==> awaits == [] && farm == old(farm) && running == old(running)
    {
      if awaits == [] {
        return;
      }
      var now := awaits[0];
      awaits := awaits[1..];
      running := running && !now.stops;
      for i := 0 to |now.others|
        invariant Valid() && SameIdeas(old(farm), farm) && own == old(own)
        invariant farm.flights[me] == old(farm.flights[me])
        invariant pushing.Some? ==>
          pushing.value < |farm.pushers| && farm.pushers[pushing.value] == old(farm.pushers[pushing.value])
      {
        var a := now.others[i];
        if NotOf(me, pushing, a) && Can(farm, a) {
          OthersKeepPlaces(farm, me, pushing, a);
          Perform(a);
        }
      }
    }

    // ---- clients ----

    /** `enqueue_batch`: the record first, then the items one by one. */
    method EnqueueBatch(ideas: seq<Idea>, force: bool, job: JobId) returns (p: nat)
      requires Valid() && job !in farm.jobs
      modifies this
      ensures Valid() && Submitted(farm, job, ideas, true)
      ensures Pushing(farm, p, Pusher(job, force, []))
      ensures own == old(own)
    {
      p := |farm.pushers|;
      Perform(Submit(job, ideas, force, true));
      PushAll(p, job, ideas, force, true);
    }

    /** `enqueue`: a job of one idea, whose record has no list of results. */
    method Enqueue(idea: Idea, force: bool, job: JobId) returns (p: nat)
      requires Valid() && job !in farm.jobs
      modifies this
      ensures Valid() && Submitted(farm, job, [idea], false)
      ensures Pushing(farm, p, Pusher(job, force, []))
      ensures own == old(own)
    {
      p := |farm.pushers|;
      Perform(Submit(job, [idea], force, false));
      PushAll(p, job, [idea], force, false);
    }

    method PushAll(p: nat, job: JobId, ideas: seq<Idea>, force: bool, ghost batch: bool)
      requires Valid() && Submitted(farm, job, ideas, batch) && Pushing(farm, p, Pusher(job, force, ideas))
      modifies this
      ensures Valid() && Submitted(farm, job, ideas, batch) && own == old(own)
      ensures Pushing(farm, p, Pusher(job, force, []))
    {
      var pusher := Pusher(job, force, ideas);
      while pusher.rest != []
        invariant Valid() && Submitted(farm, job, ideas, batch) && own == old(own)
        invariant pusher == Pusher(job, force, pusher.rest) && Pushing(farm, p, pusher)
        decreases |pusher.rest|
      {
        PushNext(p, pusher, job, ideas, batch);
        pusher := Pusher(job, force, pusher.rest[1..]);
      }
    }

    method PushNext(p: nat, pusher: Pusher, ghost job: JobId, ghost ideas: seq<Idea>, ghost batch: bool)
      requires Valid() && Pushing(farm, p, pusher) && pusher.rest != [] && Submitted(farm, job, ideas, batch)
      modifies this
      ensures Valid() && Submitted(farm, job, ideas, batch) && own == old(own)
      ensures Pushing(farm, p, pusher.(rest := pusher.rest[1..]))
    {
      Await(Some(p));
      Perform(Push(p));
    }

    // ---- the worker ----

    /** An await and then this worker's next command. */
    method Command(a: Action)
      requires Valid() && InProgress(a) && a.w == me && Can(farm, a)
      modifies this
      ensures Valid() && own == old(own) + [a]
      ensures farm.flights[me] == Next(old(farm).flights[me].value, a)
      ensures old(awaits) == [] ==> awaits == [] && running == old(running)
      ensures old(awaits) == [] ==> AttemptsLeft(farm) + (if a.Classify? then 1 else 0) <= AttemptsLeft(old(farm))
    {
      Await(None);
      RunKeepsSound(start, trace);
      AttemptsMove(farm, a);
      CommandLeads(farm, a);
      Perform(a);
    }

    /** `_process_job`, for an item just popped: the status, the classifier, and the outcome:
        recorded, or sent round again after the backoff. */
    method ProcessJob(item: Item, verdict: Verdict)
      requires Valid() && farm.flights[me] == Some(Flight(item, Updating))
      modifies this
      ensures Valid() && farm.flights[me].None?
      ensures own == old(own) + Script(me, item, verdict)
      ensures old(awaits) == [] ==> awaits == [] && running == old(running)
      ensures old(awaits) == [] ==> AttemptsLeft(farm) < AttemptsLeft(old(farm))
    {
      ghost var before := own;
      Command(Update(me));
      Command(Classify(me, verdict));
      Concatenated(before, Update(me), Classify(me, verdict), [Mark(me)]);
      Concatenated(before, Update(me), Classify(me, verdict), [Sleep(me), Requeue(me)]);
      if verdict.Transient? && item.retries < MAX_RETRIES {
        RetryJob(item);
      } else {
        Command(Mark(me));
      }
    }

    method RetryJob(item: Item)
      requires Valid() && farm.flights[me] == Some(Flight(item, BackingOff))
      modifies this
      ensures Valid() && farm.flights[me].None?
      ensures own == old(own) + [Sleep(me), Requeue(me)]
      ensures old(awaits) == [] ==> awaits == [] && running == old(running)
      ensures old(awaits) == [] ==> AttemptsLeft(farm) <= AttemptsLeft(old(farm))
    {
      Command(Sleep(me));
      Command(Requeue(me));
    }

    /** One turn of the loop: pop an item and process it, or time out on an empty queue. */
    method Turn(verdict: Verdict) returns (took: bool)
      requires Valid() && farm.flights[me].None?
      modifies this
      ensures Valid() && farm.flights[me].None?
      ensures old(awaits) == [] ==> awaits == [] && running == old(running)
      ensures old(awaits) == [] ==> took == (old(farm).queue != []) && (!took ==> farm == old(farm))
      ensures old(awaits) == [] && took ==> AttemptsLeft(farm) < AttemptsLeft(old(farm))
    {
      Await(None);
      took := farm.queue != [];
      if took {
        var item := farm.queue[|farm.queue| - 1];
        RunKeepsSound(start, trace);
        AttemptsMove(farm, Pop(me));
        Perform(Pop(me));
        ProcessJob(item, verdict);
      }
    }

    /** `process_queue`, for as many turns as it is left running. On its own it empties any
        queue within the attempts left, which are at most four per item. */
    method ProcessQueue(turns: nat, verdict: nat -> Verdict) returns (processed: nat)
      requires Valid() && farm.flights[me].None?
      modifies this
      ensures Valid() && farm.flights[me].None?
      ensures old(awaits) == [] && AttemptsLeft(old(farm)) <= turns ==> farm.queue == []
      ensures old(awaits) == [] ==> processed <= AttemptsLeft(old(farm))
    {
      processed, running := 0, true;
      ghost var quiet, before := awaits == [], AttemptsLeft(farm);
      var left := turns;
      while running && left > 0
        invariant Valid() && farm.flights[me].None?
        invariant quiet ==> awaits == [] && running
        invariant quiet ==> AttemptsLeft(farm) + processed <= before
        invariant quiet ==> farm.queue == [] || processed == turns - left
        decreases left
      {
        left := left - 1;
        var took := Turn(verdict(left));
        if took {
          processed := processed + 1;
        }
      }
      RunKeepsSound(start, trace);
      QueuedHaveAttempts(farm);
    }
  }

  /** This worker's command at a place it is already in. */
  predicate InProgress(a: Action)
  {
    !a.Submit? && !a.Push? && !a.Pop?
  }

  /** Where a worker's command leads it. */
  function Next(flight: Flight, a: Action): Option<Flight>
  {
    var item := flight.item;
    match a
    case Update(_) => Some(Flight(item, Classifying))
    case Classify(_, verdict) => Some(Flight(item, AfterClassify(item, verdict)))
    case Sleep(_) => Some(Flight(item.(waited := item.waited + Backoff(item.retries + 1)), Requeueing))
    case _ => None
  }

  lemma CommandLeads(f: Farm, a: Action)
    requires Can(f, a) && InProgress(a)
    ensures Do(f, a).flights[a.w] == Next(f.flights[a.w].value, a)
  {
  }

  lemma Concatenated(s: seq<Action>, a: Action, b: Action, rest: seq<Action>)
    ensures (s + [a]) + [b] + rest == s + ([a, b] + rest)
  {
  }

  /** A queued item has an attempt left. */
  lemma QueuedHaveAttempts(f: Farm)
    requires Sound(f)
    ensures AttemptsLeft(f) == 0 ==> f.queue == []
  {
    if f.queue != [] {
      assert ItemSound(f.queue[|f.queue| - 1]);
      assert QueuedLeft()(f.queue[|f.queue| - 1]) >= 1;
    }
  }
}
