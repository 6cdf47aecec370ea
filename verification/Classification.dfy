/** The classification queue (src/workers/classification_worker.py) as a machine: clients
    submit jobs and push their items one by one, any number of workers pop items, classify
    them, and record or retry the outcome. Each action is one awaited command; reading and
    writing back a job's record counts as one. */
module Classification {
  import opened Wrappers

  type JobId = nat
  type Idea = nat

  const MAX_RETRIES: nat := 3
  const MAX_BACKOFF: nat := 60

  datatype Verdict =
    | Classified(category: string, confidence: real)
    | Transient(message: string)     // a connection error, a timeout or an OS error
    | Permanent(message: string)     // any other exception

  datatype Status = Pending | Processing | Completed | Failed

  datatype Entry = Entry(idea: Idea, verdict: Verdict)

  /** A job's record. Single jobs have no list of results; the list of errors is created by
      the first. `won` and `lost` record the outcomes; no code reads them. */
  datatype Job = Job(
    status: Status,
    total: nat,
    completed: nat,
    failed: nat,
    ideas: seq<Idea>,
    results: Option<seq<Entry>>,
    errors: Option<seq<Entry>>,
    won: multiset<Idea>,
    lost: multiset<Idea>)

  /** A queued item. `waited` records its backoff so far; no code reads it. */
  datatype Item = Item(job: JobId, idea: Idea, force: bool, retries: nat, waited: nat)

  /** Where a worker is in `_process_job`: the command it awaits next. */
  datatype Phase = Updating | Classifying | Marking(verdict: Verdict) | BackingOff | Requeueing

  datatype Flight = Flight(item: Item, phase: Phase)

  /** A client part way through pushing a job's items. */
  datatype Pusher = Pusher(job: JobId, force: bool, rest: seq<Idea>)

  datatype Farm = Farm(
    queue: seq<Item>,                 // pushed in front, popped from the back
    jobs: map<JobId, Job>,
    flights: seq<Option<Flight>>,     // one place per worker
    pushers: seq<Pusher>,
    submitted: nat,                   // items of all jobs; no code reads this or the next
    attempts: nat)                    // calls of the classifier

  datatype Action =
    | Submit(job: JobId, ideas: seq<Idea>, force: bool, batch: bool)
    | Push(p: nat)
    | Pop(w: nat)
    | Update(w: nat)
    | Classify(w: nat, verdict: Verdict)
    | Sleep(w: nat)
    | Requeue(w: nat)
    | Mark(w: nat)

  // ---- the record of a job ----

  function NewJob(ideas: seq<Idea>, batch: bool): Job
  {
    Job(Pending, |ideas|, 0, 0, ideas, if batch then Some([]) else None, None, multiset{}, multiset{})
  }

  function WithSuccess(j: Job, idea: Idea, verdict: Verdict): Job
  {
    var results := if j.results.Some? then Some(j.results.value + [Entry(idea, verdict)]) else None;
    var status := if j.completed + 1 + j.failed >= j.total then Completed else j.status;
    j.(completed := j.completed + 1, results := results, status := status, won := j.won + multiset{idea})
  }

  function WithFailure(j: Job, idea: Idea, verdict: Verdict): Job
  {
    var errors := Some(j.errors.GetOr([]) + [Entry(idea, verdict)]);
    var status := if j.completed + j.failed + 1 >= j.total
                  then (if j.failed + 1 == j.total then Failed else Completed) else j.status;
    j.(failed := j.failed + 1, errors := errors, status := status, lost := j.lost + multiset{idea})
  }

  /** The delay before the given retry: one second, doubled each time, at most a minute. */
  function Backoff(retry: nat): nat
  {
    if Power(retry - 1) < MAX_BACKOFF then Power(retry - 1) else MAX_BACKOFF
  }

  function Power(n: int): nat
  {
    if n <= 0 then 1 else 2 * Power(n - 1)
  }

  // ---- the machine ----

  predicate InPhase(f: Farm, w: nat)
  {
    w < |f.flights| && f.flights[w].Some?
  }

  predicate Can(f: Farm, a: Action)
  {
    match a
    case Submit(job, ideas, _, batch) => job !in f.jobs && (!batch ==> |ideas| == 1)
    case Push(p) => p < |f.pushers| && f.pushers[p].rest != []
    case Pop(w) => w < |f.flights| && f.flights[w].None? && f.queue != []
    case Update(w) => InPhase(f, w) && f.flights[w].value.phase.Updating?
    case Classify(w, _) => InPhase(f, w) && f.flights[w].value.phase.Classifying?
    case Sleep(w) => InPhase(f, w) && f.flights[w].value.phase.BackingOff?
    case Requeue(w) => InPhase(f, w) && f.flights[w].value.phase.Requeueing?
    case Mark(w) => InPhase(f, w) && f.flights[w].value.phase.Marking?
  }

  function At(f: Farm, w: nat, flight: Option<Flight>): Farm
    requires w < |f.flights|
  {
    f.(flights := f.flights[w := flight])
  }

  /** What the worker does once the classifier has answered. */
  function AfterClassify(item: Item, verdict: Verdict): Phase
  {
    if verdict.Transient? && item.retries < MAX_RETRIES then BackingOff else Marking(verdict)
  }

  function Marked(j: Job, idea: Idea, verdict: Verdict): Job
  {
    if verdict.Classified? then WithSuccess(j, idea, verdict) else WithFailure(j, idea, verdict)
  }

  function Do(f: Farm, a: Action): Farm
    requires Can(f, a)
  {
    match a
    case Submit(job, ideas, force, batch) =>
      f.(jobs := f.jobs[job := NewJob(ideas, batch)], pushers := f.pushers + [Pusher(job, force, ideas)],
         submitted := f.submitted + |ideas|)
    case Push(p) =>
      var pusher := f.pushers[p];
      f.(queue := [Item(pusher.job, pusher.rest[0], pusher.force, 0, 0)] + f.queue,
         pushers := f.pushers[p := pusher.(rest := pusher.rest[1..])])
    case Pop(w) =>
      At(f.(queue := f.queue[..|f.queue| - 1]), w, Some(Flight(f.queue[|f.queue| - 1], Updating)))
    case Update(w) =>
      var item := f.flights[w].value.item;
      var jobs := if item.job in f.jobs then f.jobs[item.job := f.jobs[item.job].(status := Processing)] else f.jobs;
      At(f.(jobs := jobs), w, Some(Flight(item, Classifying)))
    case Classify(w, verdict) =>
      var item := f.flights[w].value.item;
      At(f.(attempts := f.attempts + 1), w, Some(Flight(item, AfterClassify(item, verdict))))
    case Sleep(w) =>
      var item := f.flights[w].value.item;
      At(f, w, Some(Flight(item.(waited := item.waited + Backoff(item.retries + 1)), Requeueing)))
    case Requeue(w) =>
      var item := f.flights[w].value.item;
      At(f.(queue := [item.(retries := item.retries + 1)] + f.queue), w, None)
    case Mark(w) =>
      var item := f.flights[w].value.item;
      var verdict := f.flights[w].value.phase.verdict;
      var jobs := if item.job in f.jobs then f.jobs[item.job := Marked(f.jobs[item.job], item.idea, verdict)] else f.jobs;
      At(f.(jobs := jobs), w, None)
  }

  predicate CanRun(f: Farm, run: seq<Action>)
    decreases |run|, 0
  {
    run == [] || (CanRun(f, run[..|run| - 1]) && Can(Run(f, run[..|run| - 1]), run[|run| - 1]))
  }

  function Run(f: Farm, run: seq<Action>): Farm
    requires CanRun(f, run)
    decreases |run|, 1
  {
    if run == [] then f else Do(Run(f, run[..|run| - 1]), run[|run| - 1])
  }

  predicate Initial(f: Farm)
  {
    && f.queue == [] && f.jobs == map[] && f.pushers == [] && f.submitted == 0 && f.attempts == 0
    && forall w :: 0 <= w < |f.flights| ==> f.flights[w].None?
  }

  // ---- sums over sequences ----

  function Sum<T>(s: seq<T>, weight: T -> nat): nat
  {
    if s == [] then 0 else Sum(s[..|s| - 1], weight) + weight(s[|s| - 1])
  }

  lemma {:induction false} SumConcat<T>(s: seq<T>, t: seq<T>, weight: T -> nat)
    ensures Sum(s + t, weight) == Sum(s, weight) + Sum(t, weight)
  {
    if t == [] {
      assert s + t == s;
    } else {
      assert (s + t)[..|s + t| - 1] == s + t[..|t| - 1];
      SumConcat(s, t[..|t| - 1], weight);
    }
  }

  lemma SumOne<T>(x: T, weight: T -> nat)
    ensures Sum([x], weight) == weight(x)
  {
    assert [x][..0] == [];
  }

  lemma SumFront<T>(s: seq<T>, x: T, weight: T -> nat)
    ensures Sum([x] + s, weight) == weight(x) + Sum(s, weight)
  {
    SumConcat([x], s, weight);
    SumOne(x, weight);
  }

  lemma SumReplaced<T>(s: seq<T>, i: nat, x: T, weight: T -> nat)
    requires i < |s|
    ensures Sum(s[i := x], weight) + weight(s[i]) == Sum(s, weight) + weight(x)
  {
    assert s == s[..i] + [s[i]] + s[i + 1..] && s[i := x] == s[..i] + [x] + s[i + 1..];
    SumConcat(s[..i] + [s[i]], s[i + 1..], weight);
    SumConcat(s[..i] + [x], s[i + 1..], weight);
    SumConcat(s[..i], [s[i]], weight);
    SumConcat(s[..i], [x], weight);
    SumOne(s[i], weight);
    SumOne(x, weight);
  }

  // ---- what is outstanding ----

  /** What an item counts for, by its job and idea. */
  type Measure = (JobId, Idea) -> nat

  function OfJob(j: JobId): Measure
  {
    (job: JobId, idea: Idea) => if job == j then 1 else 0
  }

  function OfIdea(j: JobId, i: Idea): Measure
  {
    (job: JobId, idea: Idea) => if job == j && idea == i then 1 else 0
  }

  function QueuedBy(m: Measure): Item -> nat
  {
    (item: Item) => m(item.job, item.idea)
  }

  function FlyingBy(m: Measure): Option<Flight> -> nat
  {
    (o: Option<Flight>) => InFlight(m, o)
  }

  function InFlight(m: Measure, o: Option<Flight>): nat
  {
    if o.Some? then m(o.value.item.job, o.value.item.idea) else 0
  }

  function IdeasBy(m: Measure, job: JobId): Idea -> nat
  {
    (idea: Idea) => m(job, idea)
  }

  function UnpushedBy(m: Measure): Pusher -> nat
  {
    (p: Pusher) => Sum(p.rest, IdeasBy(m, p.job))
  }

  /** The three places an item can be in, weighed. */
  datatype Weights = Weights(queued: Item -> nat, flying: Option<Flight> -> nat, unpushed: Pusher -> nat)

  function Total(f: Farm, k: Weights): nat
  {
    Sum(f.queue, k.queued) + Sum(f.flights, k.flying) + Sum(f.pushers, k.unpushed)
  }

  function By(m: Measure): Weights
  {
    Weights(QueuedBy(m), FlyingBy(m), UnpushedBy(m))
  }

  /** The items that are queued, in flight or not yet pushed. */
  function Outstanding(f: Farm, m: Measure): nat
  {
    Total(f, By(m))
  }

  /** A worker's place changes, nothing else. */
  lemma FlightMoves(f: Farm, g: Farm, w: nat, flight: Option<Flight>, k: Weights)
    requires w < |f.flights| && g.flights == f.flights[w := flight] && g.queue == f.queue && g.pushers == f.pushers
    ensures Total(g, k) + k.flying(f.flights[w]) == Total(f, k) + k.flying(flight)
  {
    SumReplaced(f.flights, w, flight, k.flying);
  }

  lemma SubmitMoves(f: Farm, g: Farm, p: Pusher, k: Weights)
    requires g.flights == f.flights && g.queue == f.queue && g.pushers == f.pushers + [p]
    ensures Total(g, k) == Total(f, k) + k.unpushed(p)
  {
    SumConcat(f.pushers, [p], k.unpushed);
    SumOne(p, k.unpushed);
  }

  lemma PushMoves(f: Farm, g: Farm, p: nat, item: Item, k: Weights)
    requires p < |f.pushers| && |g.pushers| == |f.pushers|
    requires g.queue == [item] + f.queue && g.flights == f.flights && g.pushers == f.pushers[p := g.pushers[p]]
    ensures Total(g, k) + k.unpushed(f.pushers[p]) == Total(f, k) + k.queued(item) + k.unpushed(g.pushers[p])
  {
    SumReplaced(f.pushers, p, g.pushers[p], k.unpushed);
    SumFront(f.queue, item, k.queued);
  }

  lemma PopMoves(f: Farm, g: Farm, w: nat, flight: Option<Flight>, k: Weights)
    requires w < |f.flights| && f.queue != []
    requires g.queue == f.queue[..|f.queue| - 1] && g.pushers == f.pushers && g.flights == f.flights[w := flight]
    ensures Total(g, k) + k.queued(f.queue[|f.queue| - 1]) + k.flying(f.flights[w]) == Total(f, k) + k.flying(flight)
  {
    SumReplaced(f.flights, w, flight, k.flying);
  }

  lemma RequeueMoves(f: Farm, g: Farm, w: nat, item: Item, k: Weights)
    requires w < |f.flights| && g.pushers == f.pushers
    requires g.queue == [item] + f.queue && g.flights == f.flights[w := None]
    ensures Total(g, k) + k.flying(f.flights[w]) == Total(f, k) + k.queued(item) + k.flying(None)
  {
    SumReplaced(f.flights, w, None, k.flying);
    SumFront(f.queue, item, k.queued);
  }

  /** How an action moves a total. */
  lemma TotalMoves(f: Farm, a: Action, k: Weights)
    requires Can(f, a)
    ensures a.Submit? ==> Total(Do(f, a), k) == Total(f, k) + k.unpushed(Pusher(a.job, a.force, a.ideas))
    ensures a.Push? ==>
      Total(Do(f, a), k) + k.unpushed(f.pushers[a.p]) ==
      Total(f, k) + k.queued(Do(f, a).queue[0]) + k.unpushed(Do(f, a).pushers[a.p])
    ensures a.Pop? ==>
      Total(Do(f, a), k) + k.queued(f.queue[|f.queue| - 1]) + k.flying(None) ==
      Total(f, k) + k.flying(Do(f, a).flights[a.w])
    ensures a.Requeue? ==>
      Total(Do(f, a), k) + k.flying(f.flights[a.w]) ==
      Total(f, k) + k.queued(Do(f, a).queue[0]) + k.flying(None)
    ensures a.Update? || a.Classify? || a.Sleep? || a.Mark? ==>
      Total(Do(f, a), k) + k.flying(f.flights[a.w]) == Total(f, k) + k.flying(Do(f, a).flights[a.w])
  {
    var g := Do(f, a);
    match a {
      case Submit(job, ideas, force, _) => SubmitMoves(f, g, Pusher(job, force, ideas), k);
      case Push(p) => PushMoves(f, g, p, g.queue[0], k);
      case Pop(w) => PopMoves(f, g, w, g.flights[w], k);
      case Requeue(w) => RequeueMoves(f, g, w, g.queue[0], k);
      case _ => FlightMoves(f, g, a.w, g.flights[a.w], k);
    }
  }

  /** What an action adds to, and takes from, what is outstanding. */
  function Gained(a: Action, m: Measure): nat
  {
    if a.Submit? then Sum(a.ideas, IdeasBy(m, a.job)) else 0
  }

  function Settled(f: Farm, a: Action, m: Measure): nat
    requires Can(f, a)
  {
    if a.Mark? then FlyingBy(m)(f.flights[a.w]) else 0
  }

  /** Only two actions change what is outstanding: a submission adds its ideas, a mark takes
      the marked item away. */
  lemma OutstandingMoves(f: Farm, a: Action, m: Measure)
    requires Can(f, a)
    ensures Outstanding(Do(f, a), m) + Settled(f, a, m) == Outstanding(f, m) + Gained(a, m)
  {
    TotalMoves(f, a, By(m));
    if a.Push? {
      var pusher := f.pushers[a.p];
      assert pusher.rest == [pusher.rest[0]] + pusher.rest[1..];
      SumFront(pusher.rest[1..], pusher.rest[0], IdeasBy(m, pusher.job));
    }
  }

  // ---- the invariant ----

  function Ideas(entries: seq<Entry>): (ideas: seq<Idea>)
    ensures |ideas| == |entries|
  {
    seq(|entries|, i requires 0 <= i < |entries| => entries[i].idea)
  }

  predicate Terminal(s: Status)
  {
    s.Completed? || s.Failed?
  }

  /** A record agrees with its outcomes, its status is terminal exactly when every item has
      an outcome, and then it is FAILED exactly when all outcomes are failures. */
  predicate Recorded(job: Job)
  {
    && job.total == |job.ideas|
    && job.completed == |job.won| && job.failed == |job.lost|
    && (job.results.Some? ==> multiset(Ideas(job.results.value)) == job.won)
    && multiset(Ideas(job.errors.GetOr([]))) == job.lost
    && (Terminal(job.status) <==> job.total > 0 && job.completed + job.failed == job.total)
    && (Terminal(job.status) ==> (job.status.Failed? <==> job.failed == job.total))
  }

  /** Every submitted idea of the job has exactly one place: succeeded, failed, queued, in
      flight or not yet pushed. */
  ghost predicate Accounted(f: Farm, j: JobId)
    requires j in f.jobs
  {
    var job := f.jobs[j];
    && (forall i :: job.won[i] + job.lost[i] + Outstanding(f, OfIdea(j, i)) == multiset(job.ideas)[i])
    && job.completed + job.failed + Outstanding(f, OfJob(j)) == job.total
  }

  predicate ItemSound(item: Item)
  {
    item.retries <= MAX_RETRIES && item.waited == Backoffs(item.retries)
  }

  predicate QueueSound(queue: seq<Item>, jobs: set<JobId>)
  {
    forall i :: 0 <= i < |queue| ==> ItemSound(queue[i]) && queue[i].job in jobs
  }

  function Backoffs(retries: nat): nat
  {
    if retries == 0 then 0 else Backoffs(retries - 1) + Backoff(retries)
  }

  predicate FlightSound(f: Farm, flight: Flight)
  {
    && flight.item.job in f.jobs && flight.item.retries <= MAX_RETRIES
    && (flight.phase.BackingOff? || flight.phase.Requeueing? ==> flight.item.retries < MAX_RETRIES)
    && flight.item.waited == Backoffs(flight.item.retries + if flight.phase.Requeueing? then 1 else 0)
  }

  ghost predicate Nothing(f: Farm, j: JobId)
  {
    Outstanding(f, OfJob(j)) == 0 && forall i :: Outstanding(f, OfIdea(j, i)) == 0
  }

  ghost predicate Sound(f: Farm)
  {
    && (forall j :: j in f.jobs ==> Recorded(f.jobs[j]) && Accounted(f, j))
    && (forall j :: j !in f.jobs ==> Nothing(f, j))
    && (forall p :: 0 <= p < |f.pushers| ==> f.pushers[p].job in f.jobs)
    && QueueSound(f.queue, f.jobs.Keys)
    && (forall w :: 0 <= w < |f.flights| && f.flights[w].Some? ==> FlightSound(f, f.flights[w].value))
  }

  lemma MarkedRecorded(job: Job, idea: Idea, verdict: Verdict)
    requires Recorded(job) && job.completed + job.failed < job.total
    ensures Recorded(Marked(job, idea, verdict))
  {
    var k := Marked(job, idea, verdict);
    if verdict.Classified? {
      if job.results.Some? {
        IdeasAppend(job.results.value, Entry(idea, verdict));
      }
    } else {
      IdeasAppend(job.errors.GetOr([]), Entry(idea, verdict));
    }
  }

  lemma IdeasAppend(entries: seq<Entry>, e: Entry)
    ensures Ideas(entries + [e]) == Ideas(entries) + [e.idea]
  {
  }

  /** An item in flight is outstanding, so its job is not done yet. */
  lemma {:induction false} InFlightIsOutstanding(flights: seq<Option<Flight>>, w: nat, weight: Option<Flight> -> nat)
    requires w < |flights|
    ensures weight(flights[w]) <= Sum(flights, weight)
  {
    if w < |flights| - 1 {
      InFlightIsOutstanding(flights[..|flights| - 1], w, weight);
    }
  }

  /** How an action changes the record of a job. */
  lemma RecordMoves(f: Farm, a: Action, j: JobId)
    requires Can(f, a) && j in f.jobs
    ensures j in Do(f, a).jobs
    ensures a.Mark? && f.flights[a.w].value.item.job == j ==>
      Do(f, a).jobs[j] == Marked(f.jobs[j], f.flights[a.w].value.item.idea, f.flights[a.w].value.phase.verdict)
    ensures a.Update? && f.flights[a.w].value.item.job == j ==> Do(f, a).jobs[j] == f.jobs[j].(status := Processing)
    ensures !((a.Mark? || a.Update?) && f.flights[a.w].value.item.job == j) ==> Do(f, a).jobs[j] == f.jobs[j]
  {
  }

  lemma StepKeepsRecorded(f: Farm, a: Action, j: JobId)
    requires Can(f, a) && j in f.jobs && Recorded(f.jobs[j]) && Accounted(f, j)
    ensures j in Do(f, a).jobs && Recorded(Do(f, a).jobs[j])
  {
    RecordMoves(f, a, j);
    if (a.Update? || a.Mark?) && f.flights[a.w].value.item.job == j {
      InFlightIsOutstanding(f.flights, a.w, FlyingBy(OfJob(j)));
      if a.Mark? {
        MarkedRecorded(f.jobs[j], f.flights[a.w].value.item.idea, f.flights[a.w].value.phase.verdict);
      }
    }
  }

  lemma MarkedCounts(job: Job, idea: Idea, verdict: Verdict, i: Idea)
    ensures var k := Marked(job, idea, verdict);
      && k.won[i] + k.lost[i] == job.won[i] + job.lost[i] + (if i == idea then 1 else 0)
      && k.completed + k.failed == job.completed + job.failed + 1
      && k.ideas == job.ideas && k.total == job.total
  {
  }

  lemma StepKeepsCount(f: Farm, a: Action, j: JobId)
    requires Can(f, a) && j in f.jobs && Accounted(f, j)
    ensures j in Do(f, a).jobs
    ensures var job := Do(f, a).jobs[j]; job.completed + job.failed + Outstanding(Do(f, a), OfJob(j)) == job.total
  {
    RecordMoves(f, a, j);
    OutstandingMoves(f, a, OfJob(j));
    if a.Submit? {
      NoneOf(a.ideas, OfJob(j), a.job);
    } else if a.Mark? {
      MarkedCounts(f.jobs[j], f.flights[a.w].value.item.idea, f.flights[a.w].value.phase.verdict, 0);
    }
  }

  lemma StepKeepsIdea(f: Farm, a: Action, j: JobId, i: Idea)
    requires Can(f, a) && j in f.jobs && Accounted(f, j)
    ensures j in Do(f, a).jobs
    ensures var job := Do(f, a).jobs[j];
      job.won[i] + job.lost[i] + Outstanding(Do(f, a), OfIdea(j, i)) == multiset(job.ideas)[i]
  {
    RecordMoves(f, a, j);
    OutstandingMoves(f, a, OfIdea(j, i));
    if a.Submit? {
      NoneOf(a.ideas, OfIdea(j, i), a.job);
    } else if a.Mark? {
      MarkedCounts(f.jobs[j], f.flights[a.w].value.item.idea, f.flights[a.w].value.phase.verdict, i);
    }
  }

  lemma StepKeepsAccounted(f: Farm, a: Action, j: JobId)
    requires Can(f, a) && j in f.jobs && Accounted(f, j)
    ensures j in Do(f, a).jobs && Accounted(Do(f, a), j)
  {
    StepKeepsCount(f, a, j);
    var g := Do(f, a);
    forall i ensures g.jobs[j].won[i] + g.jobs[j].lost[i] + Outstanding(g, OfIdea(j, i)) == multiset(g.jobs[j].ideas)[i] {
      StepKeepsIdea(f, a, j, i);
    }
  }

  lemma {:induction false} NoneOf(ideas: seq<Idea>, m: Measure, job: JobId)
    requires forall i :: m(job, i) == 0
    ensures Sum(ideas, IdeasBy(m, job)) == 0
  {
    if ideas != [] {
      NoneOf(ideas[..|ideas| - 1], m, job);
    }
  }

  lemma {:induction false} AllOf(ideas: seq<Idea>, job: JobId, i: Idea)
    ensures Sum(ideas, IdeasBy(OfJob(job), job)) == |ideas|
    ensures Sum(ideas, IdeasBy(OfIdea(job, i), job)) == multiset(ideas)[i]
  {
    if ideas != [] {
      AllOf(ideas[..|ideas| - 1], job, i);
      assert ideas == ideas[..|ideas| - 1] + [ideas[|ideas| - 1]];
    }
  }

  lemma SubmitRecords(f: Farm, a: Action)
    requires Can(f, a) && a.Submit? && Nothing(f, a.job)
    ensures Recorded(Do(f, a).jobs[a.job]) && Accounted(Do(f, a), a.job)
  {
    var g := Do(f, a);
    assert Ideas([]) == [];
    OutstandingMoves(f, a, OfJob(a.job));
    AllOf(a.ideas, a.job, 0);
    forall i ensures Outstanding(g, OfIdea(a.job, i)) == multiset(a.ideas)[i] {
      OutstandingMoves(f, a, OfIdea(a.job, i));
      AllOf(a.ideas, a.job, i);
    }
  }

  lemma StepKeepsNothing(f: Farm, a: Action, j: JobId)
    requires Can(f, a) && j !in Do(f, a).jobs && Nothing(f, j)
    ensures Nothing(Do(f, a), j)
  {
    OutstandingMoves(f, a, OfJob(j));
    if a.Submit? {
      NoneOf(a.ideas, OfJob(j), a.job);
    }
    forall i ensures Outstanding(Do(f, a), OfIdea(j, i)) == 0 {
      OutstandingMoves(f, a, OfIdea(j, i));
      if a.Submit? {
        NoneOf(a.ideas, OfIdea(j, i), a.job);
      }
    }
  }

  lemma JobsStay(f: Farm, a: Action)
    requires Can(f, a)
    ensures f.jobs.Keys <= Do(f, a).jobs.Keys
  {
  }

  lemma StepKeepsItems(f: Farm, a: Action)
    requires Can(f, a) && QueueSound(f.queue, f.jobs.Keys)
    requires a.Requeue? ==> FlightSound(f, f.flights[a.w].value)
    requires a.Push? ==> f.pushers[a.p].job in f.jobs.Keys
    ensures QueueSound(Do(f, a).queue, Do(f, a).jobs.Keys)
  {
    JobsStay(f, a);
    var g := Do(f, a);
    if a.Push? || a.Requeue? {
      assert ItemSound(g.queue[0]) by {
        if a.Requeue? {
          RequeuedSound(f, f.flights[a.w].value);
        }
      }
      QueueGrows(f.queue, g.queue[0], f.jobs.Keys);
    }
  }

  lemma RequeuedSound(f: Farm, flight: Flight)
    requires FlightSound(f, flight) && flight.phase.Requeueing?
    ensures ItemSound(flight.item.(retries := flight.item.retries + 1))
  {
  }

  lemma QueueGrows(queue: seq<Item>, item: Item, jobs: set<JobId>)
    requires QueueSound(queue, jobs) && ItemSound(item) && item.job in jobs
    ensures QueueSound([item] + queue, jobs)
  {
  }

  lemma StepKeepsPushers(f: Farm, a: Action)
    requires Sound(f) && Can(f, a)
    ensures forall p :: 0 <= p < |Do(f, a).pushers| ==> Do(f, a).pushers[p].job in Do(f, a).jobs
  {
    JobsStay(f, a);
    var g := Do(f, a);
    forall p | 0 <= p < |g.pushers| ensures g.pushers[p].job in g.jobs {
      if p < |f.pushers| {
        assert g.pushers[p].job == f.pushers[p].job && f.pushers[p].job in f.jobs;
      }
    }
  }

  lemma StepKeepsFlights(f: Farm, a: Action, w: nat)
    requires Can(f, a) && w < |Do(f, a).flights| && Do(f, a).flights[w].Some?
    requires f.flights[w].Some? ==> FlightSound(f, f.flights[w].value)
    requires QueueSound(f.queue, f.jobs.Keys)
    ensures FlightSound(Do(f, a), Do(f, a).flights[w].value)
  {
    JobsStay(f, a);
    var g := Do(f, a);
    if a.Submit? || a.Push? || a.w != w {
      assert g.flights[w] == f.flights[w];
    } else if a.Pop? {
      assert ItemSound(f.queue[|f.queue| - 1]) && f.queue[|f.queue| - 1].job in f.jobs.Keys;
    } else {
      NextPhaseSound(f, a, f.flights[w].value, g.flights[w].value);
    }
  }

  lemma NextPhaseSound(f: Farm, a: Action, was: Flight, next: Flight)
    requires FlightSound(f, was)
    requires || (next == Flight(was.item, Classifying) && was.phase.Updating?)
             || (exists verdict :: next == Flight(was.item, AfterClassify(was.item, verdict)) && was.phase.Classifying?)
             || (was.phase.BackingOff?
                 && next == Flight(was.item.(waited := was.item.waited + Backoff(was.item.retries + 1)), Requeueing))
    ensures FlightSound(f, next)
  {
  }

  lemma StepKeepsSound(f: Farm, a: Action)
    requires Sound(f) && Can(f, a)
    ensures Sound(Do(f, a))
  {
    var g := Do(f, a);
    forall j | j in g.jobs ensures Recorded(g.jobs[j]) && Accounted(g, j) {
      if j in f.jobs {
        StepKeepsRecorded(f, a, j);
        StepKeepsAccounted(f, a, j);
      } else {
        SubmitRecords(f, a);
      }
    }
    forall j | j !in g.jobs ensures Nothing(g, j) {
      StepKeepsNothing(f, a, j);
    }
    StepKeepsItems(f, a);
    StepKeepsPushers(f, a);
    forall w | 0 <= w < |g.flights| && g.flights[w].Some? ensures FlightSound(g, g.flights[w].value) {
      StepKeepsFlights(f, a, w);
    }
  }

  // ---- whole runs ----

  lemma {:induction false} SumOfNothing<T>(s: seq<T>, weight: T -> nat)
    requires forall i :: 0 <= i < |s| ==> weight(s[i]) == 0
    ensures Sum(s, weight) == 0
  {
    if s != [] {
      SumOfNothing(s[..|s| - 1], weight);
    }
  }

  lemma InitialTotal(f: Farm, k: Weights)
    requires Initial(f) && k.flying(None) == 0
    ensures Total(f, k) == 0
  {
    SumOfNothing(f.flights, k.flying);
  }

  lemma InitialIsSound(f: Farm)
    requires Initial(f)
    ensures Sound(f)
  {
    forall j ensures Nothing(f, j) {
      InitialTotal(f, By(OfJob(j)));
      forall i ensures Outstanding(f, OfIdea(j, i)) == 0 {
        InitialTotal(f, By(OfIdea(j, i)));
      }
    }
  }

  lemma {:induction false} RunKeepsSound(f: Farm, run: seq<Action>)
    requires Sound(f) && CanRun(f, run)
    ensures Sound(Run(f, run))
    decreases |run|
  {
    if run != [] {
      RunKeepsSound(f, run[..|run| - 1]);
      StepKeepsSound(Run(f, run[..|run| - 1]), run[|run| - 1]);
    }
  }

  lemma SoundInEveryRun(start: Farm, run: seq<Action>)
    requires Initial(start) && CanRun(start, run)
    ensures Sound(Run(start, run))
  {
    InitialIsSound(start);
    RunKeepsSound(start, run);
  }

  /** In every run, for every job: completed, failed, queued, in flight and not yet pushed
      add up to the total, and idea by idea to the submitted list. */
  lemma EveryItemIsAccountedFor(start: Farm, run: seq<Action>, f: Farm, j: JobId)
    requires Initial(start) && CanRun(start, run) && f == Run(start, run) && j in f.jobs
    ensures f.jobs[j].completed + f.jobs[j].failed + Sum(f.queue, QueuedBy(OfJob(j)))
          + Sum(f.flights, FlyingBy(OfJob(j))) + Sum(f.pushers, UnpushedBy(OfJob(j))) == f.jobs[j].total
    ensures forall i :: f.jobs[j].won[i] + f.jobs[j].lost[i] + Outstanding(f, OfIdea(j, i))
                     == multiset(f.jobs[j].ideas)[i]
  {
    SoundInEveryRun(start, run);
    assert Accounted(f, j);
  }

  /** In every run, a job that is not empty has a terminal status exactly when nothing of it
      is outstanding; it is then FAILED exactly when every item failed, and for a batch the
      ideas among results and errors are the submitted ones, each as often. */
  lemma TerminalMeansSettled(start: Farm, run: seq<Action>, f: Farm, j: JobId)
    requires Initial(start) && CanRun(start, run) && f == Run(start, run) && j in f.jobs && f.jobs[j].ideas != []
    ensures Terminal(f.jobs[j].status) <==> Outstanding(f, OfJob(j)) == 0
    ensures Terminal(f.jobs[j].status) ==> (f.jobs[j].status.Failed? <==> f.jobs[j].completed == 0)
    ensures Terminal(f.jobs[j].status) && f.jobs[j].results.Some? ==>
      multiset(Ideas(f.jobs[j].results.value)) + multiset(Ideas(f.jobs[j].errors.GetOr([]))) == multiset(f.jobs[j].ideas)
  {
    SoundInEveryRun(start, run);
    SettledExactly(f, j);
  }

  lemma SettledExactly(f: Farm, j: JobId)
    requires j in f.jobs && Recorded(f.jobs[j]) && Accounted(f, j) && f.jobs[j].ideas != []
    ensures Terminal(f.jobs[j].status) <==> Outstanding(f, OfJob(j)) == 0
    ensures Terminal(f.jobs[j].status) ==> (f.jobs[j].status.Failed? <==> f.jobs[j].completed == 0)
    ensures Terminal(f.jobs[j].status) && f.jobs[j].results.Some? ==>
      multiset(Ideas(f.jobs[j].results.value)) + multiset(Ideas(f.jobs[j].errors.GetOr([]))) == multiset(f.jobs[j].ideas)
  {
    var job := f.jobs[j];
    if Terminal(job.status) {
      forall i ensures job.won[i] + job.lost[i] <= multiset(job.ideas)[i] {
        assert job.won[i] + job.lost[i] + Outstanding(f, OfIdea(j, i)) == multiset(job.ideas)[i];
      }
      SubsetOfSameSize(job.won + job.lost, multiset(job.ideas));
    }
  }

  lemma SubsetOfSameSize(a: multiset<Idea>, b: multiset<Idea>)
    requires a <= b && |a| == |b|
    ensures a == b
  {
    assert b == a + (b - a);
  }

  /** An item waits a second before its first retry, two more before the second and four more
      before the third; nothing waits longer. */
  lemma BackoffIsBounded(start: Farm, run: seq<Action>, f: Farm)
    requires Initial(start) && CanRun(start, run) && f == Run(start, run)
    ensures forall i :: 0 <= i < |f.queue| ==> f.queue[i].retries <= 3 && f.queue[i].waited == [0, 1, 3, 7][f.queue[i].retries]
    ensures forall w :: 0 <= w < |f.flights| && f.flights[w].Some? ==> f.flights[w].value.item.waited <= 7
  {
    SoundInEveryRun(start, run);
    QueueWaits(f.queue, f.jobs.Keys);
    forall w | 0 <= w < |f.flights| && f.flights[w].Some? ensures f.flights[w].value.item.waited <= 7 {
      FlightWaits(f, f.flights[w].value);
    }
  }

  lemma QueueWaits(queue: seq<Item>, jobs: set<JobId>)
    requires QueueSound(queue, jobs)
    ensures forall i :: 0 <= i < |queue| ==> queue[i].retries <= 3 && queue[i].waited == [0, 1, 3, 7][queue[i].retries]
  {
    forall i | 0 <= i < |queue| ensures queue[i].retries <= 3 && queue[i].waited == [0, 1, 3, 7][queue[i].retries] {
      assert ItemSound(queue[i]);
      BackoffsAddUp(queue[i].retries);
    }
  }

  lemma FlightWaits(f: Farm, flight: Flight)
    requires FlightSound(f, flight)
    ensures flight.item.waited <= 7
  {
    BackoffsAddUp(flight.item.retries + if flight.phase.Requeueing? then 1 else 0);
  }

  /** 1 + 2 + 4: the delays of the three retries. */
  lemma BackoffsAddUp(retries: nat)
    requires retries <= MAX_RETRIES
    ensures Backoffs(retries) == [0, 1, 3, 7][retries]
  {
    assert Backoffs(0) == 0;
    assert Backoffs(1) == Backoff(1) == 1;
    assert Backoffs(2) == 1 + Backoff(2) == 3;
    assert Backoffs(3) == 3 + Backoff(3) == 7;
  }

  // ---- attempts ----

  /** How often an item with so many retries may still be classified. */
  function Left(retries: nat): nat
  {
    if retries <= MAX_RETRIES then MAX_RETRIES + 1 - retries else 0
  }

  function QueuedLeft(): Item -> nat
  {
    (item: Item) => Left(item.retries)
  }

  function FlyingLeft(): Option<Flight> -> nat
  {
    (o: Option<Flight>) => LeftInFlight(o)
  }

  function LeftInFlight(o: Option<Flight>): nat
  {
    if o.None? then 0
    else match o.value.phase
         case Updating => Left(o.value.item.retries)
         case Classifying => Left(o.value.item.retries)
         case Marking(_) => 0
         case _ => Left(o.value.item.retries + 1)
  }

  function UnpushedLeft(): Pusher -> nat
  {
    (p: Pusher) => Left(0) * |p.rest|
  }

  function AttemptsLeft(f: Farm): nat
  {
    Total(f, Weights(QueuedLeft(), FlyingLeft(), UnpushedLeft()))
  }

  /** Every call of the classifier uses up an attempt, and nothing gives one back. */
  lemma AttemptsMove(f: Farm, a: Action)
    requires Sound(f) && Can(f, a)
    ensures a.Submit? ==> AttemptsLeft(Do(f, a)) == AttemptsLeft(f) + 4 * |a.ideas|
    ensures a.Classify? ==> AttemptsLeft(Do(f, a)) + 1 <= AttemptsLeft(f)
    ensures !a.Submit? && !a.Classify? ==> AttemptsLeft(Do(f, a)) == AttemptsLeft(f)
  {
    if a.Push? {
      PushKeepsAttempts(f, a.p);
    } else if a.Pop? {
      PopKeepsAttempts(f, a.w);
    } else if a.Submit? {
      TotalMoves(f, a, Weights(QueuedLeft(), FlyingLeft(), UnpushedLeft()));
    } else {
      assert FlightSound(f, f.flights[a.w].value);
      FlightUsesAttempt(f, a);
    }
  }

  lemma PushKeepsAttempts(f: Farm, p: nat)
    requires Can(f, Push(p))
    ensures AttemptsLeft(Do(f, Push(p))) == AttemptsLeft(f)
  {
    var k, g := Weights(QueuedLeft(), FlyingLeft(), UnpushedLeft()), Do(f, Push(p));
    TotalMoves(f, Push(p), k);
    PushTakesOne(f, p);
    assert k.queued(g.queue[0]) == 4;
    assert k.unpushed(g.pushers[p]) == 4 * |g.pushers[p].rest| && k.unpushed(f.pushers[p]) == 4 * |f.pushers[p].rest|;
  }

  lemma PopKeepsAttempts(f: Farm, w: nat)
    requires Can(f, Pop(w))
    ensures AttemptsLeft(Do(f, Pop(w))) == AttemptsLeft(f)
  {
    var k := Weights(QueuedLeft(), FlyingLeft(), UnpushedLeft());
    TotalMoves(f, Pop(w), k);
    assert k.flying(Do(f, Pop(w)).flights[w]) == Left(f.queue[|f.queue| - 1].retries);
  }

  lemma PushTakesOne(f: Farm, p: nat)
    requires Can(f, Push(p))
    ensures Do(f, Push(p)).queue[0].retries == 0
    ensures |Do(f, Push(p)).pushers[p].rest| == |f.pushers[p].rest| - 1
  {
  }

  lemma FlightUsesAttempt(f: Farm, a: Action)
    requires Can(f, a) && !a.Submit? && !a.Push? && !a.Pop?
    requires f.flights[a.w].value.item.retries <= MAX_RETRIES
    ensures a.Classify? ==> AttemptsLeft(Do(f, a)) + 1 <= AttemptsLeft(f)
    ensures !a.Classify? ==> AttemptsLeft(Do(f, a)) == AttemptsLeft(f)
  {
    TotalMoves(f, a, Weights(QueuedLeft(), FlyingLeft(), UnpushedLeft()));
    PhaseUsesAttempt(f, a);
  }

  lemma PhaseUsesAttempt(f: Farm, a: Action)
    requires Can(f, a) && !a.Submit? && !a.Push? && !a.Pop?
    requires f.flights[a.w].value.item.retries <= MAX_RETRIES
    ensures a.Classify? ==> LeftInFlight(Do(f, a).flights[a.w]) + 1 <= LeftInFlight(f.flights[a.w])
    ensures a.Update? || a.Sleep? || a.Mark? ==> LeftInFlight(Do(f, a).flights[a.w]) == LeftInFlight(f.flights[a.w])
    ensures a.Requeue? ==> Left(Do(f, a).queue[0].retries) == LeftInFlight(f.flights[a.w])
  {
  }

  /** In every run, whatever fails: n submitted items are classified at most 4n times. */
  lemma {:induction false} FourAttemptsEach(start: Farm, run: seq<Action>)
    requires Initial(start) && CanRun(start, run)
    ensures Run(start, run).attempts + AttemptsLeft(Run(start, run)) <= 4 * Run(start, run).submitted
    decreases |run|
  {
    InitialIsSound(start);
    if run == [] {
      InitialTotal(start, Weights(QueuedLeft(), FlyingLeft(), UnpushedLeft()));
    } else {
      var before, a := run[..|run| - 1], run[|run| - 1];
      FourAttemptsEach(start, before);
      RunKeepsSound(start, before);
      AttemptsMove(Run(start, before), a);
      CountersMove(Run(start, before), a);
    }
  }

  lemma CountersMove(f: Farm, a: Action)
    requires Can(f, a)
    ensures Do(f, a).attempts == f.attempts + if a.Classify? then 1 else 0
    ensures Do(f, a).submitted == f.submitted + if a.Submit? then |a.ideas| else 0
  {
  }

  // ---- draining ----

  /** The actions an item can still take: at most five per attempt, and one to push it. */
  function QueuedSteps(): Item -> nat
  {
    (item: Item) => 5 * Left(item.retries)
  }

  function FlyingSteps(): Option<Flight> -> nat
  {
    (o: Option<Flight>) => StepsInFlight(o)
  }

  function StepsInFlight(o: Option<Flight>): nat
  {
    if o.None? then 0
    else
      var retries := o.value.item.retries;
      match o.value.phase
      case Updating => 5 * Left(retries + 1) + 4
      case Classifying => 5 * Left(retries + 1) + 3
      case Marking(_) => 1
      case BackingOff => 5 * Left(retries + 1) + 2
      case Requeueing => 5 * Left(retries + 1) + 1
  }

  function UnpushedSteps(): Pusher -> nat
  {
    (p: Pusher) => (5 * Left(0) + 1) * |p.rest|
  }

  function StepsLeft(f: Farm): nat
  {
    Total(f, Weights(QueuedSteps(), FlyingSteps(), UnpushedSteps()))
  }

  lemma StepsFall(f: Farm, a: Action)
    requires Sound(f) && Can(f, a) && !a.Submit?
    ensures StepsLeft(Do(f, a)) < StepsLeft(f)
  {
    if a.Push? {
      PushUsesStep(f, a.p);
    } else if a.Pop? {
      assert ItemSound(f.queue[|f.queue| - 1]);
      PopUsesStep(f, a.w);
    } else {
      assert FlightSound(f, f.flights[a.w].value);
      FlightUsesStep(f, a);
    }
  }

  lemma PushUsesStep(f: Farm, p: nat)
    requires Can(f, Push(p))
    ensures StepsLeft(Do(f, Push(p))) < StepsLeft(f)
  {
    var k, g := Weights(QueuedSteps(), FlyingSteps(), UnpushedSteps()), Do(f, Push(p));
    TotalMoves(f, Push(p), k);
    PushTakesOne(f, p);
    assert k.queued(g.queue[0]) == 20;
    assert k.unpushed(g.pushers[p]) == 21 * |g.pushers[p].rest| && k.unpushed(f.pushers[p]) == 21 * |f.pushers[p].rest|;
  }

  lemma PopUsesStep(f: Farm, w: nat)
    requires Can(f, Pop(w)) && f.queue[|f.queue| - 1].retries <= MAX_RETRIES
    ensures StepsLeft(Do(f, Pop(w))) < StepsLeft(f)
  {
    var k := Weights(QueuedSteps(), FlyingSteps(), UnpushedSteps());
    TotalMoves(f, Pop(w), k);
    assert k.flying(Do(f, Pop(w)).flights[w]) < 5 * Left(f.queue[|f.queue| - 1].retries);
  }

  lemma FlightUsesStep(f: Farm, a: Action)
    requires Can(f, a) && !a.Submit? && !a.Push? && !a.Pop?
    requires f.flights[a.w].value.item.retries <= MAX_RETRIES
    ensures StepsLeft(Do(f, a)) < StepsLeft(f)
  {
    TotalMoves(f, a, Weights(QueuedSteps(), FlyingSteps(), UnpushedSteps()));
    PhaseUsesStep(f, a);
  }

  lemma PhaseUsesStep(f: Farm, a: Action)
    requires Can(f, a) && !a.Submit? && !a.Push? && !a.Pop?
    requires f.flights[a.w].value.item.retries <= MAX_RETRIES
    ensures a.Requeue? ==> 5 * Left(Do(f, a).queue[0].retries) < StepsInFlight(f.flights[a.w])
    ensures !a.Requeue? ==> StepsInFlight(Do(f, a).flights[a.w]) < StepsInFlight(f.flights[a.w])
  {
  }

  predicate Drained(f: Farm)
  {
    && f.queue == []
    && (forall w :: 0 <= w < |f.flights| ==> f.flights[w].None?)
    && (forall p :: 0 <= p < |f.pushers| ==> f.pushers[p].rest == [])
  }

  /** What the worker in this place does next. */
  function NextOf(w: nat, place: Option<Flight>): Action
  {
    if place.None? then Pop(w)
    else match place.value.phase
         case Updating => Update(w)
         case Classifying => Classify(w, Transient(""))
         case Marking(_) => Mark(w)
         case BackingOff => Sleep(w)
         case Requeueing => Requeue(w)
  }

  /** With a worker, something can happen until everything is drained. */
  lemma NothingLeftToDo(f: Farm)
    requires |f.flights| > 0 && forall a :: Can(f, a) ==> a.Submit?
    ensures Drained(f)
  {
    forall w | 0 <= w < |f.flights| ensures f.flights[w].None? {
      assert f.flights[w].Some? ==> Can(f, NextOf(w, f.flights[w]));
    }
    forall p | 0 <= p < |f.pushers| ensures f.pushers[p].rest == [] {
      var q: nat := p;
      assert f.pushers[q].rest != [] ==> Can(f, Push(q));
    }
    assert f.queue != [] ==> Can(f, Pop(0));
  }

  /** Without new submissions every run ends, within the steps left, and where it can go no
      further every job that is not empty has reached its terminal status. */
  lemma {:induction false} RunsDrain(f: Farm, run: seq<Action>)
    requires Sound(f) && CanRun(f, run) && forall i :: 0 <= i < |run| ==> !run[i].Submit?
    ensures |run| + StepsLeft(Run(f, run)) <= StepsLeft(f)
    ensures |f.flights| > 0 && (forall a :: Can(Run(f, run), a) ==> a.Submit?) ==>
      Drained(Run(f, run)) && forall j :: j in Run(f, run).jobs && Run(f, run).jobs[j].ideas != [] ==>
                                          Terminal(Run(f, run).jobs[j].status)
    decreases |run|
  {
    if run != [] {
      var before, a := run[..|run| - 1], run[|run| - 1];
      RunsDrain(f, before);
      RunKeepsSound(f, before);
      StepsFall(Run(f, before), a);
    }
    var g := Run(f, run);
    RunKeepsSound(f, run);
    WorkersStay(f, run);
    if |f.flights| > 0 && forall a :: Can(g, a) ==> a.Submit? {
      NothingLeftToDo(g);
      forall j | j in g.jobs && g.jobs[j].ideas != [] ensures Terminal(g.jobs[j].status) {
        DrainedMeansDone(g, j);
      }
    }
  }

  lemma DrainedMeansDone(g: Farm, j: JobId)
    requires Drained(g) && j in g.jobs && Recorded(g.jobs[j]) && Accounted(g, j) && g.jobs[j].ideas != []
    ensures Terminal(g.jobs[j].status)
  {
    SumOfNothing(g.flights, FlyingBy(OfJob(j)));
    SumOfNothing(g.pushers, UnpushedBy(OfJob(j)));
  }

  lemma {:induction false} WorkersStay(f: Farm, run: seq<Action>)
    requires CanRun(f, run)
    ensures |Run(f, run).flights| == |f.flights|
    decreases |run|
  {
    if run != [] {
      WorkersStay(f, run[..|run| - 1]);
    }
  }
}
