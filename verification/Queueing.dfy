/** The order of the classification queue (src/workers/classification_worker.py:76-172, 205-233,
    387-409): in every run the n-th pop takes the n-th item pushed, a worker works on the item
    it has popped, and the items of a job are pushed in the order they were submitted. */
module Queueing {
  import opened Wrappers
  import opened Classification

  // ---- what happened, read off the run ----

  /** Everything that was pushed: new items, and items sent round again. */
  function Pushed(start: Farm, run: seq<Action>): seq<Item>
    requires CanRun(start, run)
    decreases |run|
  {
    if run == [] then []
    else
      var before, a := run[..|run| - 1], run[|run| - 1];
      Pushed(start, before) + PushedNow(Run(start, before), a)
  }

  function PushedNow(f: Farm, a: Action): seq<Item>
    requires Can(f, a)
  {
    match a
    case Push(p) => [Item(f.pushers[p].job, f.pushers[p].rest[0], f.pushers[p].force, 0, 0)]
    case Requeue(w) => [f.flights[w].value.item.(retries := f.flights[w].value.item.retries + 1)]
    case _ => []
  }

  function Pops(run: seq<Action>): nat
  {
    if run == [] then 0 else Pops(run[..|run| - 1]) + if run[|run| - 1].Pop? then 1 else 0
  }

  /** Which pop was the worker's last. */
  function LastPop(run: seq<Action>, w: nat): Option<nat>
  {
    if run == [] then None
    else if run[|run| - 1] == Pop(w) then Some(Pops(run[..|run| - 1]))
    else LastPop(run[..|run| - 1], w)
  }

  /** The submission of the job. */
  function SubmittedAs(run: seq<Action>, j: JobId): Option<Action>
  {
    if run == [] then None
    else if run[|run| - 1].Submit? && run[|run| - 1].job == j then Some(run[|run| - 1])
    else SubmittedAs(run[..|run| - 1], j)
  }

  /** How many items clients have pushed for the job. */
  function FirstPushes(start: Farm, run: seq<Action>, j: JobId): seq<Item>
    requires CanRun(start, run)
    decreases |run|
  {
    if run == [] then []
    else
      var before, a := run[..|run| - 1], run[|run| - 1];
      FirstPushes(start, before, j)
      + if a.Push? && Run(start, before).pushers[a.p].job == j then PushedNow(Run(start, before), a) else []
  }

  // ---- first in, first out ----

  /** The queue holds what was pushed and not popped, the latest in front. */
  predicate InOrder(queue: seq<Item>, pushed: seq<Item>, pops: nat)
  {
    && |queue| + pops == |pushed|
    && forall i :: 0 <= i < |queue| ==> queue[i] == pushed[|pushed| - 1 - i]
  }

  /** The same item, but for what it has waited. */
  predicate SameItem(item: Item, other: Item)
  {
    item.job == other.job && item.idea == other.idea && item.force == other.force && item.retries == other.retries
  }

  predicate FromPop(o: Option<Flight>, pushed: seq<Item>, pop: Option<nat>)
  {
    o.Some? ==> pop.Some? && pop.value < |pushed| && SameItem(o.value.item, pushed[pop.value])
  }

  lemma StepInOrder(f: Farm, a: Action, pushed: seq<Item>, pops: nat)
    requires Can(f, a) && InOrder(f.queue, pushed, pops)
    ensures InOrder(Do(f, a).queue, pushed + PushedNow(f, a), pops + if a.Pop? then 1 else 0)
  {
    var g, more := Do(f, a), pushed + PushedNow(f, a);
    if a.Push? || a.Requeue? {
      assert g.queue == PushedNow(f, a) + f.queue;
    } else if a.Pop? {
      assert g.queue == f.queue[..|f.queue| - 1];
    } else {
      assert g.queue == f.queue;
    }
  }

  lemma StepFromPop(f: Farm, a: Action, w: nat, pushed: seq<Item>, pops: nat, pop: Option<nat>)
    requires Can(f, a) && InOrder(f.queue, pushed, pops) && w < |f.flights| && FromPop(f.flights[w], pushed, pop)
    ensures |Do(f, a).flights| == |f.flights|
    ensures FromPop(Do(f, a).flights[w], pushed + PushedNow(f, a), if a == Pop(w) then Some(pops) else pop)
  {
    if a == Pop(w) {
      assert f.queue[|f.queue| - 1] == pushed[pops];
    } else if a.Submit? || a.Push? || a.w != w {
      assert Do(f, a).flights[w] == f.flights[w];
    }
  }

  ghost predicate Ordered(f: Farm, start: Farm, run: seq<Action>)
    requires CanRun(start, run)
  {
    && InOrder(f.queue, Pushed(start, run), Pops(run))
    && forall w: nat :: w < |f.flights| ==> FromPop(f.flights[w], Pushed(start, run), LastPop(run, w))
  }

  lemma {:induction false} EveryRunIsOrdered(start: Farm, run: seq<Action>)
    requires Initial(start) && CanRun(start, run)
    ensures Ordered(Run(start, run), start, run)
    decreases |run|
  {
    if run != [] {
      var before, a := run[..|run| - 1], run[|run| - 1];
      var f, g := Run(start, before), Run(start, run);
      EveryRunIsOrdered(start, before);
      StepInOrder(f, a, Pushed(start, before), Pops(before));
      forall w: nat | w < |g.flights| ensures FromPop(g.flights[w], Pushed(start, run), LastPop(run, w)) {
        StepFromPop(f, a, w, Pushed(start, before), Pops(before), LastPop(before, w));
      }
    }
  }

  /** In every run the queue is what has been pushed and not yet popped, in that order. */
  lemma FirstInFirstOut(start: Farm, run: seq<Action>)
    requires Initial(start) && CanRun(start, run)
    ensures InOrder(Run(start, run).queue, Pushed(start, run), Pops(run))
  {
    EveryRunIsOrdered(start, run);
  }

  /** A worker works on the item that its last pop took: job, idea, force and retries. */
  lemma WorkersKeepTheirItem(start: Farm, run: seq<Action>, w: nat)
    requires Initial(start) && CanRun(start, run) && w < |Run(start, run).flights| && Run(start, run).flights[w].Some?
    ensures LastPop(run, w).Some? && LastPop(run, w).value < |Pushed(start, run)|
    ensures SameItem(Run(start, run).flights[w].value.item, Pushed(start, run)[LastPop(run, w).value])
  {
    EveryRunIsOrdered(start, run);
  }

  // ---- the order within a job ----

  /** The job is as it was submitted, and its pusher has pushed its first ideas. */
  predicate SubmittedSo(f: Farm, j: JobId, s: Option<Action>, first: seq<Item>)
    requires j in f.jobs
  {
    && s.Some? && s.value.Submit? && s.value.job == j && f.jobs[j].ideas == s.value.ideas
    && f.jobs[j].total == |s.value.ideas| && f.jobs[j].results.Some? == s.value.batch
    && |first| <= |s.value.ideas|
    && (forall i :: 0 <= i < |first| ==> first[i] == Item(j, s.value.ideas[i], s.value.force, 0, 0))
    && (forall p :: 0 <= p < |f.pushers| && f.pushers[p].job == j ==>
          f.pushers[p] == Pusher(j, s.value.force, s.value.ideas[|first|..]))
  }

  /** One pusher per job. */
  predicate OnePusherEach(f: Farm)
  {
    && (forall p :: 0 <= p < |f.pushers| ==> f.pushers[p].job in f.jobs)
    && forall p, q :: 0 <= p < q < |f.pushers| ==> f.pushers[p].job != f.pushers[q].job
  }

  lemma StepKeepsOnePusher(f: Farm, a: Action)
    requires Can(f, a) && OnePusherEach(f)
    ensures OnePusherEach(Do(f, a))
  {
    JobsStay(f, a);
    PushersAfter(f, a);
  }

  lemma PushersAfter(f: Farm, a: Action)
    requires Can(f, a)
    ensures Do(f, a).pushers ==
      if a.Submit? then f.pushers + [Pusher(a.job, a.force, a.ideas)]
      else if a.Push? then f.pushers[a.p := f.pushers[a.p].(rest := f.pushers[a.p].rest[1..])]
      else f.pushers
    ensures a.Submit? ==> Do(f, a).jobs == f.jobs[a.job := NewJob(a.ideas, a.batch)]
  {
  }

  /** A record keeps what was submitted. */
  lemma SubmissionStays(f: Farm, a: Action, j: JobId)
    requires Can(f, a) && j in f.jobs
    ensures j in Do(f, a).jobs && Do(f, a).jobs[j].ideas == f.jobs[j].ideas
    ensures Do(f, a).jobs[j].total == f.jobs[j].total && Do(f, a).jobs[j].results.Some? == f.jobs[j].results.Some?
  {
    RecordMoves(f, a, j);
  }

  lemma StepSubmittedSo(f: Farm, a: Action, j: JobId, s: Option<Action>, first: seq<Item>)
    requires Can(f, a) && j in f.jobs && OnePusherEach(f) && SubmittedSo(f, j, s, first)
    ensures j in Do(f, a).jobs
    ensures SubmittedSo(Do(f, a), j, s, first + if a.Push? && f.pushers[a.p].job == j then PushedNow(f, a) else [])
  {
    SubmissionStays(f, a, j);
    PushersAfter(f, a);
    if a.Push? && f.pushers[a.p].job == j {
      assert f.pushers[a.p].rest == s.value.ideas[|first|..];
    } else {
      assert first + [] == first;
    }
  }

  ghost predicate AllSubmittedSo(f: Farm, start: Farm, run: seq<Action>)
    requires CanRun(start, run)
  {
    && OnePusherEach(f)
    && (forall j :: j in f.jobs ==> SubmittedSo(f, j, SubmittedAs(run, j), FirstPushes(start, run, j)))
    && (forall j :: j !in f.jobs ==> FirstPushes(start, run, j) == [])
  }

  lemma NewlySubmitted(f: Farm, a: Action)
    requires Can(f, a) && a.Submit? && OnePusherEach(f)
    ensures a.job in Do(f, a).jobs && SubmittedSo(Do(f, a), a.job, Some(a), [])
  {
    PushersAfter(f, a);
  }

  lemma StepAllSubmittedSo(start: Farm, run: seq<Action>)
    requires run != [] && CanRun(start, run) && AllSubmittedSo(Run(start, run[..|run| - 1]), start, run[..|run| - 1])
    ensures AllSubmittedSo(Run(start, run), start, run)
  {
    var before, a := run[..|run| - 1], run[|run| - 1];
    var f, g := Run(start, before), Run(start, run);
    StepKeepsOnePusher(f, a);
    JobsStay(f, a);
    PushersAfter(f, a);
    forall j | j in g.jobs ensures SubmittedSo(g, j, SubmittedAs(run, j), FirstPushes(start, run, j)) {
      if j in f.jobs {
        StepSubmittedSo(f, a, j, SubmittedAs(before, j), FirstPushes(start, before, j));
      } else {
        assert a.Submit? && a.job == j;
        NewlySubmitted(f, a);
      }
    }
  }

  lemma {:induction false} EveryRunSubmitsSo(start: Farm, run: seq<Action>)
    requires Initial(start) && CanRun(start, run)
    ensures AllSubmittedSo(Run(start, run), start, run)
    decreases |run|
  {
    if run != [] {
      EveryRunSubmitsSo(start, run[..|run| - 1]);
      StepAllSubmittedSo(start, run);
    }
  }

  /** In every run a job's record names the ideas it was submitted with, has a list of results
      exactly for a batch, and its ideas have been pushed one by one, in their order, with
      the job's force flag and no retries. */
  lemma PushedAsSubmitted(start: Farm, run: seq<Action>, j: JobId)
    requires Initial(start) && CanRun(start, run) && j in Run(start, run).jobs
    ensures SubmittedAs(run, j).Some? && SubmittedAs(run, j).value.Submit?
    ensures var s, job, first := SubmittedAs(run, j).value, Run(start, run).jobs[j], FirstPushes(start, run, j);
      && job.ideas == s.ideas && job.total == |s.ideas| && job.results.Some? == s.batch && |first| <= |s.ideas|
      && forall i :: 0 <= i < |first| ==> first[i] == Item(j, s.ideas[i], s.force, 0, 0)
  {
    EveryRunSubmitsSo(start, run);
  }
}
