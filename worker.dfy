/** The worker package of services/server/pkg/worker/worker.go: the same lifecycle kept in
    the fields of a `StringJobProcessor`, with workers stopped by cancelling a context. */
module Worker {
  import opened Int32
  import opened Jobs
  import Lifecycle

  /** The two cases of the worker's `select`: a job was received, or `ctx.Done()` fired. */
  datatype Branch = JobBranch | CancelBranch

  /** `JobIDCounter`, `JobStatuses` and `JobQueue` with its buffer size, and whether the
      context handed to the workers has been cancelled. */
  class StringJobProcessor {
    var counter: int
    var statuses: map<int, Status>
    var queue: seq<Job>
    const capacity: nat
    var cancelled: bool

    function Abstract(): Lifecycle.State
      reads this
    {
      Lifecycle.State(counter, statuses, queue)
    }

    ghost predicate Valid()
      reads this
    {
      Lifecycle.Inv(Abstract(), capacity)
    }

    /** The processor built in services/server/main.go: an empty registry, a channel of 100
        and a zero counter, under a context not yet cancelled. */
    constructor ()
      ensures Valid() && !cancelled
      ensures Abstract() == Lifecycle.Initial
      ensures capacity == Lifecycle.QueueCapacity
    {
      counter := 0;
      statuses := map[];
      queue := [];
      capacity := Lifecycle.QueueCapacity;
      cancelled := false;
    }

    /** `Process`: sleeps for a while, then returns nil. */
    function Process(job: Job): ProcessOutcome {
      Success
    }

    /** `CreateJobHandler`: refuses a non-POST, then an undecodable body; otherwise takes the
        next id, stores "pending" and sends the job, which blocks while the channel is full.
        The channel is never closed, so cancellation does not stop submissions. */
    method CreateJob(req: Request) returns (out: SubmitOutcome)
      requires Valid()
      requires Lifecycle.SubmitProceeds(Abstract(), capacity, req)
      modifies this
      ensures Valid() && cancelled == old(cancelled)
      ensures Lifecycle.Submission(Abstract(), out) == Lifecycle.Submit(old(Abstract()), req)
      ensures Lifecycle.Advanced(old(statuses), statuses)
    {
      Lifecycle.SubmitKeepsInv(Abstract(), capacity, req);
      if req.httpMethod != Post {
        return Rejected(MethodNotAllowed);
      }
      if req.body.Undecodable? {
        return Rejected(BadRequest);
      }
      if counter == MaxInt32 {
        return Rejected(IdsExhausted);
      }
      counter := counter + 1;
      var id := counter;
      statuses := statuses[id := Pending];
      queue := queue + [Job(id, req.body.payload)];
      out := Accepted(id);
    }

    /** `JobStatusHandler`, given the parsed id: the stored status, or not found. */
    method JobStatus(id: int) returns (r: QueryResult)
      requires Valid()
      ensures r == Lifecycle.Lookup(Abstract(), id)
      ensures r.Found? <==> 1 <= id <= counter
    {
      if id in statuses {
        r := Found(statuses[id]);
      } else {
        r := NotFound;
      }
    }

    /** `cancelCtx()` in main; calling it again has no further effect. */
    method Cancel()
      requires Valid()
      modifies this`cancelled
      ensures Valid() && cancelled
    {
      cancelled := true;
    }

    /** One `select` of the worker loop, up to the "processing" store. The branch taken is a
        parameter: it must be ready (a job is buffered, or the context is cancelled), and when
        both are ready either may be taken. */
    method Select(branch: Branch) returns (r: Option<Job>)
      requires Valid()
      requires branch == JobBranch ==> |queue| > 0
      requires branch == CancelBranch ==> cancelled
      modifies this
      ensures Valid() && cancelled == old(cancelled)
      ensures branch == JobBranch ==> r == Some(old(queue[0])) && Abstract() == Lifecycle.Start(old(Abstract())).state
      ensures branch == CancelBranch ==> r == None && Abstract() == old(Abstract())
      ensures Lifecycle.Advanced(old(statuses), statuses)
    {
      match branch
      case CancelBranch =>
        r := None;
      case JobBranch =>
        Lifecycle.StartKeepsInv(Abstract(), capacity);
        var job := queue[0];
        queue := queue[1..];
        statuses := statuses[job.id := Processing];
        r := Some(job);
    }

    /** The store after `Process` returns: "failed" on an error, "completed" on nil. Only the
        worker that received the job, whose status is "processing", does this. */
    method Finish(job: Job, outcome: ProcessOutcome)
      requires Valid()
      requires job.id in statuses && statuses[job.id] == Processing
      modifies this
      ensures Valid() && cancelled == old(cancelled)
      ensures Abstract() == Lifecycle.Finish(old(Abstract()), job.id, outcome)
      ensures Lifecycle.Advanced(old(statuses), statuses)
    {
      Lifecycle.FinishKeepsInv(Abstract(), capacity, job.id, outcome);
      if outcome == Failure {
        statuses := statuses[job.id := Failed];
        return;
      }
      statuses := statuses[job.id := Completed];
    }

    /** `Worker` after cancellation, with no other goroutine running. While jobs are buffered
        both cases of the `select` are ready, so the worker takes some number `jobBranches`
        of jobs (at most all of them) before it takes the cancel case and returns. The jobs it
        takes end "completed" under the real `Process`; the jobs left behind stay "pending". */
    method Worker(jobBranches: nat)
      requires Valid() && cancelled
      requires jobBranches <= |queue|
      modifies this
      ensures Valid() && cancelled
      ensures queue == old(queue)[jobBranches..]
      ensures Abstract() == Lifecycle.Drain(old(Abstract()), jobBranches)
      ensures Lifecycle.Advanced(old(statuses), statuses)
      ensures forall i :: 0 <= i < jobBranches ==> statuses[old(queue)[i].id] == Completed
      ensures forall i :: jobBranches <= i < |old(queue)| ==> statuses[old(queue)[i].id] == Pending
      ensures forall id :: id in old(statuses) && old(statuses)[id] != Pending ==> statuses[id] == old(statuses)[id]
    {
      var k := 0;
      while k < jobBranches
        invariant Valid() && cancelled
        invariant k <= jobBranches
        invariant Abstract() == Lifecycle.Drain(old(Abstract()), k)
      {
        var r := Select(JobBranch);
        var job := r.value;
        Finish(job, Process(job));
        k := k + 1;
      }
      var r := Select(CancelBranch);
      Lifecycle.DrainSpec(old(Abstract()), capacity, k);
    }
  }

  /** Cancel while two jobs are queued: a worker that takes the cancel case first leaves both
      pending, and one that takes the job case once completes only the first. */
  method CancelWithQueuedJobs() {
    var sjp := new StringJobProcessor();
    var a := sjp.CreateJob(Request(Post, Decoded("A")));
    var b := sjp.CreateJob(Request(Post, Decoded("B")));
    sjp.Cancel();
    sjp.Worker(0);
    var q := sjp.JobStatus(1);
    assert q == Found(Pending);
    sjp.Worker(1);
    q := sjp.JobStatus(1);
    assert q == Found(Completed);
    q := sjp.JobStatus(2);
    assert q == Found(Pending);
  }
}
