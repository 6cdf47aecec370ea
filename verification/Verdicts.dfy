/** What becomes of the classifier's answers (src/workers/classification_worker.py:235-368): in
    every run a job's record tells exactly what the classifier said of its items, success by
    success and failure by failure, and its status says how far it has come. */
module Verdicts {
  import opened Wrappers
  import opened Classification

  // ---- what happened, read off the run ----

  /** What the classifier last answered this worker. */
  function LastVerdict(run: seq<Action>, w: nat): Option<Verdict>
  {
    if run == [] then None
    else
      var a := run[|run| - 1];
      if a.Classify? && a.w == w then Some(a.verdict) else LastVerdict(run[..|run| - 1], w)
  }

  /** The last step is a command of a worker that has an item of the job. */
  predicate ForJob(start: Farm, run: seq<Action>, j: JobId)
    requires run != [] && CanRun(start, run)
  {
    var f, a := Run(start, run[..|run| - 1]), run[|run| - 1];
    !a.Submit? && !a.Push? && !a.Pop? && f.flights[a.w].value.item.job == j
  }

  /** The items of the job that are through with, each with the last answer of the classifier. */
  function Outcomes(start: Farm, run: seq<Action>, j: JobId): seq<Entry>
    requires CanRun(start, run)
    decreases |run|
  {
    if run == [] then []
    else
      var before, a := run[..|run| - 1], run[|run| - 1];
      Outcomes(start, before, j) +
      if a.Mark? && ForJob(start, run, j)
      then [Entry(Run(start, before).flights[a.w].value.item.idea, LastVerdict(before, a.w).GetOr(Permanent("")))]
      else []
  }

  function Successes(outcomes: seq<Entry>): (entries: seq<Entry>)
    ensures forall i :: 0 <= i < |entries| ==> entries[i].verdict.Classified?
  {
    if outcomes == [] then []
    else
      var last := outcomes[|outcomes| - 1];
      Successes(outcomes[..|outcomes| - 1]) + if last.verdict.Classified? then [last] else []
  }

  function Failures(outcomes: seq<Entry>): (entries: seq<Entry>)
    ensures forall i :: 0 <= i < |entries| ==> !entries[i].verdict.Classified?
    ensures |entries| + |Successes(outcomes)| == |outcomes|
  {
    if outcomes == [] then []
    else
      var last := outcomes[|outcomes| - 1];
      Failures(outcomes[..|outcomes| - 1]) + if last.verdict.Classified? then [] else [last]
  }

  /** Some worker has taken up an item of the job. */
  predicate TakenUp(start: Farm, run: seq<Action>, j: JobId)
    requires CanRun(start, run)
    decreases |run|
  {
    run != [] && (TakenUp(start, run[..|run| - 1], j) || (run[|run| - 1].Update? && ForJob(start, run, j)))
  }

  // ---- the laws ----

  /** A worker records the answer it got, unless it is a passing error with retries left; then
      it sends the item round again. */
  predicate FlightTells(o: Option<Flight>, last: Option<Verdict>)
  {
    o.Some? ==>
      var phase, retries := o.value.phase, o.value.item.retries;
      && (phase.Marking? ==> last == Some(phase.verdict) && !(phase.verdict.Transient? && retries < 3))
      && (phase.BackingOff? || phase.Requeueing? ==> last.Some? && last.value.Transient? && retries < 3)
  }

  /** The record is that of the outcomes. */
  predicate RecordTells(job: Job, outcomes: seq<Entry>)
  {
    && job.completed == |Successes(outcomes)| && job.failed == |Failures(outcomes)|
    && (job.results.Some? ==> job.results.value == Successes(outcomes))
    && job.errors == if Failures(outcomes) == [] then None else Some(Failures(outcomes))
  }

  predicate StatusTells(job: Job, takenUp: bool)
  {
    !Terminal(job.status) ==> job.status == if takenUp then Processing else Pending
  }

  ghost predicate Tells(f: Farm, start: Farm, run: seq<Action>)
    requires CanRun(start, run)
  {
    && (forall w: nat :: w < |f.flights| ==> FlightTells(f.flights[w], LastVerdict(run, w)))
    && (forall j :: j in f.jobs ==> RecordTells(f.jobs[j], Outcomes(start, run, j)) && StatusTells(f.jobs[j], TakenUp(start, run, j)))
    && (forall j :: j !in f.jobs ==> Outcomes(start, run, j) == [] && !TakenUp(start, run, j))
  }

  lemma OutcomesGrow(outcomes: seq<Entry>, e: Entry)
    ensures Successes(outcomes + [e]) == Successes(outcomes) + if e.verdict.Classified? then [e] else []
    ensures Failures(outcomes + [e]) == Failures(outcomes) + if e.verdict.Classified? then [] else [e]
  {
    var grown := outcomes + [e];
    assert grown[..|grown| - 1] == outcomes && grown[|grown| - 1] == e;
    assert Failures(grown) == Failures(outcomes) + (if e.verdict.Classified? then [] else [e]);
  }

  lemma MarkTells(job: Job, outcomes: seq<Entry>, idea: Idea, verdict: Verdict)
    requires RecordTells(job, outcomes)
    ensures RecordTells(Marked(job, idea, verdict), outcomes + [Entry(idea, verdict)])
  {
    var e, k := Entry(idea, verdict), Marked(job, idea, verdict);
    OutcomesGrow(outcomes, e);
    if verdict.Classified? {
      assert Failures(outcomes + [e]) == Failures(outcomes) && Successes(outcomes + [e]) == Successes(outcomes) + [e];
    } else {
      assert job.errors.GetOr([]) == Failures(outcomes);
      assert k.errors == Some(Failures(outcomes) + [e]);
      assert Successes(outcomes + [e]) == Successes(outcomes);
    }
  }

  lemma StepFlightTells(f: Farm, a: Action, w: nat, before: seq<Action>)
    requires Can(f, a) && w < |f.flights| && FlightTells(f.flights[w], LastVerdict(before, w))
    ensures |Do(f, a).flights| == |f.flights|
    ensures FlightTells(Do(f, a).flights[w], LastVerdict(before + [a], w))
  {
    assert (before + [a])[..|before|] == before;
    if !a.Submit? && !a.Push? && a.w == w {
      OwnFlightTells(f, a, before);
    } else {
      assert Do(f, a).flights[w] == f.flights[w];
    }
  }

  lemma OwnFlightTells(f: Farm, a: Action, before: seq<Action>)
    requires Can(f, a) && !a.Submit? && !a.Push? && FlightTells(f.flights[a.w], LastVerdict(before, a.w))
    ensures FlightTells(Do(f, a).flights[a.w], if a.Classify? then Some(a.verdict) else LastVerdict(before, a.w))
  {
    match a {
      case Pop(w) => case Update(w) => case Classify(w, _) => case Sleep(w) => case Requeue(w) => case Mark(w) =>
    }
  }

  lemma StepRecordTells(start: Farm, run: seq<Action>, j: JobId)
    requires run != [] && CanRun(start, run)
    requires Tells(Run(start, run[..|run| - 1]), start, run[..|run| - 1]) && j in Run(start, run[..|run| - 1]).jobs
    ensures j in Run(start, run).jobs && RecordTells(Run(start, run).jobs[j], Outcomes(start, run, j))
    ensures StatusTells(Run(start, run).jobs[j], TakenUp(start, run, j))
  {
    var before, a := run[..|run| - 1], run[|run| - 1];
    var f := Run(start, before);
    var mine := ForJob(start, run, j);
    JobMoves(f, a, j, LastVerdict(before, if a.Mark? then a.w else 0), Outcomes(start, before, j), TakenUp(start, before, j), mine);
    assert Outcomes(start, run, j) == Outcomes(start, before, j) +
      if a.Mark? && mine then [Entry(f.flights[a.w].value.item.idea, LastVerdict(before, a.w).GetOr(Permanent("")))] else [];
    assert TakenUp(start, run, j) <==> TakenUp(start, before, j) || (a.Update? && mine);
  }

  /** One step of a job's record. */
  lemma JobMoves(f: Farm, a: Action, j: JobId, last: Option<Verdict>, outcomes: seq<Entry>, takenUp: bool, mine: bool)
    requires Can(f, a) && j in f.jobs && RecordTells(f.jobs[j], outcomes) && StatusTells(f.jobs[j], takenUp)
    requires mine <==> !a.Submit? && !a.Push? && !a.Pop? && f.flights[a.w].value.item.job == j
    requires a.Mark? ==> FlightTells(f.flights[a.w], last)
    ensures j in Do(f, a).jobs
    ensures RecordTells(Do(f, a).jobs[j], outcomes +
      if a.Mark? && mine then [Entry(f.flights[a.w].value.item.idea, last.GetOr(Permanent("")))] else [])
    ensures StatusTells(Do(f, a).jobs[j], takenUp || (a.Update? && mine))
  {
    RecordMoves(f, a, j);
    if a.Mark? && mine {
      MarkTells(f.jobs[j], outcomes, f.flights[a.w].value.item.idea, f.flights[a.w].value.phase.verdict);
    } else {
      assert outcomes + [] == outcomes;
    }
  }

  /** A job's items are in flight only once it is submitted. */
  lemma StepTellsNothing(start: Farm, run: seq<Action>, j: JobId)
    requires run != [] && CanRun(start, run) && Sound(Run(start, run[..|run| - 1]))
    requires j !in Run(start, run[..|run| - 1]).jobs
    requires Outcomes(start, run[..|run| - 1], j) == [] && !TakenUp(start, run[..|run| - 1], j)
    ensures Outcomes(start, run, j) == [] && !TakenUp(start, run, j)
  {
    var f, a := Run(start, run[..|run| - 1]), run[|run| - 1];
    if !a.Submit? && !a.Push? && !a.Pop? {
      assert FlightSound(f, f.flights[a.w].value);
    }
  }

  lemma StepTells(start: Farm, run: seq<Action>)
    requires run != [] && CanRun(start, run) && Sound(Run(start, run[..|run| - 1]))
    requires Tells(Run(start, run[..|run| - 1]), start, run[..|run| - 1])
    ensures Tells(Run(start, run), start, run)
  {
    var before, a := run[..|run| - 1], run[|run| - 1];
    var f, g := Run(start, before), Run(start, run);
    assert run == before + [a];
    forall w: nat | w < |g.flights| ensures FlightTells(g.flights[w], LastVerdict(run, w)) {
      StepFlightTells(f, a, w, before);
    }
    JobsStay(f, a);
    forall j | j in g.jobs ensures RecordTells(g.jobs[j], Outcomes(start, run, j)) && StatusTells(g.jobs[j], TakenUp(start, run, j)) {
      if j in f.jobs {
        StepRecordTells(start, run, j);
      } else {
        StepTellsNothing(start, run, j);
      }
    }
    forall j | j !in g.jobs ensures Outcomes(start, run, j) == [] && !TakenUp(start, run, j) {
      StepTellsNothing(start, run, j);
    }
  }

  lemma {:induction false} EveryRunTells(start: Farm, run: seq<Action>)
    requires Initial(start) && CanRun(start, run)
    ensures Tells(Run(start, run), start, run)
    decreases |run|
  {
    if run != [] {
      EveryRunTells(start, run[..|run| - 1]);
      SoundInEveryRun(start, run[..|run| - 1]);
      StepTells(start, run);
    }
  }

  // ---- the results ----

  /** In every run the record holds exactly the outcomes so far: as many successes and as many
      failures as the classifier has given for good, and in a batch the results are its
      answers in their order and the errors the items it did not classify. */
  lemma OutcomesAreRecorded(start: Farm, run: seq<Action>, j: JobId)
    requires Initial(start) && CanRun(start, run) && j in Run(start, run).jobs
    ensures var job, outcomes := Run(start, run).jobs[j], Outcomes(start, run, j);
      && job.completed == |Successes(outcomes)| && job.failed == |Failures(outcomes)|
      && (job.results.Some? ==> job.results.value == Successes(outcomes))
      && job.errors.GetOr([]) == Failures(outcomes) && (job.errors.None? <==> Failures(outcomes) == [])
  {
    EveryRunTells(start, run);
  }

  /** No result is an error, and no error a result. */
  lemma ResultsAreClassified(start: Farm, run: seq<Action>, j: JobId)
    requires Initial(start) && CanRun(start, run) && j in Run(start, run).jobs
    ensures var job := Run(start, run).jobs[j];
      && (job.results.Some? ==> forall i :: 0 <= i < |job.results.value| ==> job.results.value[i].verdict.Classified?)
      && (job.errors.Some? ==> forall i :: 0 <= i < |job.errors.value| ==> !job.errors.value[i].verdict.Classified?)
  {
    EveryRunTells(start, run);
  }

  /** One mark: an answer that classifies raises `completed` by one and leaves `failed`, any
      other does the reverse. */
  lemma MarkCountsExactly(start: Farm, run: seq<Action>, w: nat, j: JobId)
    requires Initial(start) && CanRun(start, run) && Can(Run(start, run), Mark(w))
    requires Run(start, run).flights[w].value.item.job == j
    ensures var f, g := Run(start, run), Do(Run(start, run), Mark(w));
      && j in f.jobs && j in g.jobs && LastVerdict(run, w).Some?
      && if LastVerdict(run, w).value.Classified?
         then g.jobs[j].completed == f.jobs[j].completed + 1 && g.jobs[j].failed == f.jobs[j].failed
         else g.jobs[j].completed == f.jobs[j].completed && g.jobs[j].failed == f.jobs[j].failed + 1
  {
    EveryRunTells(start, run);
    SoundInEveryRun(start, run);
    var f := Run(start, run);
    assert FlightTells(f.flights[w], LastVerdict(run, w)) && FlightSound(f, f.flights[w].value);
  }

  /** The status, exactly: COMPLETED or FAILED once every item has its outcome, FAILED when
      none was classified; before that PROCESSING from the first item taken up on. An empty
      job stays PENDING. */
  lemma StatusExactly(start: Farm, run: seq<Action>, j: JobId)
    requires Initial(start) && CanRun(start, run) && j in Run(start, run).jobs
    ensures var job, outcomes := Run(start, run).jobs[j], Outcomes(start, run, j);
      job.status ==
        if |outcomes| == |job.ideas| > 0 then (if Successes(outcomes) == [] then Failed else Completed)
        else if TakenUp(start, run, j) then Processing else Pending
  {
    EveryRunTells(start, run);
    SoundInEveryRun(start, run);
    StatusOf(Run(start, run).jobs[j], Outcomes(start, run, j), TakenUp(start, run, j));
  }

  lemma StatusOf(job: Job, outcomes: seq<Entry>, takenUp: bool)
    requires Recorded(job) && RecordTells(job, outcomes) && StatusTells(job, takenUp)
    ensures job.status ==
      if |outcomes| == |job.ideas| > 0 then (if Successes(outcomes) == [] then Failed else Completed)
      else if takenUp then Processing else Pending
  {
    assert |Failures(outcomes)| + |Successes(outcomes)| == |outcomes|;
  }

  /** So a job of one idea is COMPLETED if and only if the idea was classified. */
  lemma SingleJobExactly(start: Farm, run: seq<Action>, j: JobId)
    requires Initial(start) && CanRun(start, run) && j in Run(start, run).jobs && |Run(start, run).jobs[j].ideas| == 1
    ensures var job, outcomes := Run(start, run).jobs[j], Outcomes(start, run, j);
      && (job.status.Completed? <==> |outcomes| == 1 && outcomes[0].verdict.Classified?)
      && (job.status.Failed? <==> |outcomes| == 1 && !outcomes[0].verdict.Classified?)
  {
    StatusExactly(start, run, j);
    var outcomes := Outcomes(start, run, j);
    if |outcomes| == 1 {
      assert outcomes == [] + [outcomes[0]];
      OutcomesGrow([], outcomes[0]);
    }
  }
}
