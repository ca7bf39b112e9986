/**
 * `JobsScheduler` of package scheduler: jobs are registered under their ID
 * with a cron expression; an expression the cron parser rejects, an ID that is
 * already registered and a failure of the underlying scheduler are errors,
 * and only a registration that passes all three lands in the jobs map. The
 * cron parser and the underlying scheduler are outside the model: their
 * answers are parameters.
 */
module Scheduler {
  import opened Wrappers

  /** A job as the scheduler sees it: its ID and the name of what it runs. */
  datatype Job = Job(id: string, task: string)

  /** One registration with the underlying scheduler: named and tagged by the job ID, run as a singleton. */
  datatype CronEntry = CronEntry(expression: string, name: string, tag: string, singleton: bool)

  /** `fmt.Errorf("job (%s) is already added", id)`. */
  function AlreadyAdded(id: string): string
  {
    "job (" + id + ") is already added"
  }

  class JobsScheduler {
    var jobs: map<string, Job>
    var entries: seq<CronEntry>
    var running: bool

    /** Every registration belongs to exactly one job of the map, and every job has one registration. */
    ghost predicate Valid()
      reads this
    {
      && |entries| == |jobs|
      && (forall i :: 0 <= i < |entries| ==>
            entries[i].name in jobs && entries[i].tag == entries[i].name && entries[i].singleton)
      && (forall i, j :: 0 <= i < j < |entries| ==> entries[i].name != entries[j].name)
    }

    /** `NewJobsScheduler`: no jobs, nothing running. */
    constructor ()
      ensures Valid() && jobs == map[] && entries == [] && !running
    {
      jobs, entries, running := map[], [], false;
    }

    /**
     * `AddJob`: `parseErr` is the cron parser's verdict on the expression and
     * `scheduleErr` the underlying scheduler's; the checks run in that order,
     * with the duplicate check between them.
     */
    method AddJob(cronExpression: string, job: Job, parseErr: Option<string>, scheduleErr: Option<string>)
      returns (err: Option<string>)
      requires Valid()
      modifies this
      ensures Valid() && running == old(running)
      ensures parseErr.Some? ==> err == parseErr
      ensures parseErr.None? && job.id in old(jobs) ==> err == Some(AlreadyAdded(job.id))
      ensures parseErr.None? && job.id !in old(jobs) && scheduleErr.Some? ==> err == scheduleErr
      ensures err.None? <==> parseErr.None? && job.id !in old(jobs) && scheduleErr.None?
      ensures err.Some? ==> jobs == old(jobs) && entries == old(entries)
      ensures err.None? ==> jobs == old(jobs)[job.id := job]
                            && entries == old(entries) + [CronEntry(cronExpression, job.id, job.id, true)]
    {
      if parseErr.Some? {
        return parseErr;
      }
      if job.id in jobs {
        return Some(AlreadyAdded(job.id));
      }
      if scheduleErr.Some? {
        return scheduleErr;
      }
      entries := entries + [CronEntry(cronExpression, job.id, job.id, true)];
      jobs := jobs[job.id := job];
      err := None;
    }

    /** `Start`: the underlying scheduler runs its jobs asynchronously. */
    method Start()
      modifies this
      ensures running && jobs == old(jobs) && entries == old(entries)
    {
      running := true;
    }

    /** `Stop`: always succeeds. */
    method Stop() returns (err: Option<string>)
      modifies this
      ensures !running && err.None? && jobs == old(jobs) && entries == old(entries)
    {
      running := false;
      err := None;
    }
  }

  /** One `AddJob` call: the cron expression, the job and the two outside verdicts. */
  datatype AddRequest = AddRequest(expression: string, job: Job, parseErr: Option<string>, scheduleErr: Option<string>)

  /** The jobs map after a series of `AddJob` calls. */
  function JobsAfter(jobs: map<string, Job>, reqs: seq<AddRequest>): map<string, Job>
    decreases |reqs|
  {
    if |reqs| == 0 then jobs
    else
      var r := reqs[0];
      var next := if r.parseErr.None? && r.job.id !in jobs && r.scheduleErr.None? then jobs[r.job.id := r.job] else jobs;
      JobsAfter(next, reqs[1..])
  }

  /** Runs a series of `AddJob` calls on one scheduler. */
  method AddAll(s: JobsScheduler, reqs: seq<AddRequest>) returns (errs: seq<Option<string>>)
    requires s.Valid()
    modifies s
    ensures s.Valid() && s.jobs == JobsAfter(old(s.jobs), reqs) && |errs| == |reqs|
  {
    errs := [];
    var i := 0;
    while i < |reqs|
      invariant 0 <= i <= |reqs| && |errs| == i
      invariant s.Valid()
      invariant JobsAfter(old(s.jobs), reqs) == JobsAfter(s.jobs, reqs[i..])
    {
      assert reqs[i..][1..] == reqs[i + 1..];
      var err := s.AddJob(reqs[i].expression, reqs[i].job, reqs[i].parseErr, reqs[i].scheduleErr);
      errs := errs + [err];
      i := i + 1;
    }
  }

  /** A registered job is never replaced or removed by later `AddJob` calls. */
  lemma {:induction false} FirstRegistrationWins(jobs: map<string, Job>, reqs: seq<AddRequest>, id: string)
    requires id in jobs
    ensures id in JobsAfter(jobs, reqs) && JobsAfter(jobs, reqs)[id] == jobs[id]
    decreases |reqs|
  {
    if |reqs| > 0 {
      var r := reqs[0];
      var next := if r.parseErr.None? && r.job.id !in jobs && r.scheduleErr.None? then jobs[r.job.id := r.job] else jobs;
      FirstRegistrationWins(next, reqs[1..], id);
    }
  }

  /** A job ends up registered only if some call for its ID passed every check. */
  lemma {:induction false} RegisteredOnlyIfAccepted(jobs: map<string, Job>, reqs: seq<AddRequest>, id: string)
    requires id !in jobs && id in JobsAfter(jobs, reqs)
    ensures exists i :: 0 <= i < |reqs| && reqs[i].job.id == id && reqs[i].parseErr.None? && reqs[i].scheduleErr.None?
              && JobsAfter(jobs, reqs)[id] == reqs[i].job
    decreases |reqs|
  {
    var r := reqs[0];
    if r.parseErr.None? && r.job.id !in jobs && r.scheduleErr.None? && r.job.id == id {
      FirstRegistrationWins(jobs[id := r.job], reqs[1..], id);
      assert reqs[0].job.id == id;
    } else {
      var next := if r.parseErr.None? && r.job.id !in jobs && r.scheduleErr.None? then jobs[r.job.id := r.job] else jobs;
      RegisteredOnlyIfAccepted(next, reqs[1..], id);
      var i :| 0 <= i < |reqs[1..]| && reqs[1..][i].job.id == id && reqs[1..][i].parseErr.None? && reqs[1..][i].scheduleErr.None?
               && JobsAfter(next, reqs[1..])[id] == reqs[1..][i].job;
      assert reqs[i + 1] == reqs[1..][i];
    }
  }
}
