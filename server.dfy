/** The demo server of cmd/server/server.go: package-level state shared by the HTTP
    handlers and five worker goroutines, stopped by closing the job channel. */
module Server {
  import opened Int32
  import opened Jobs
  import Lifecycle

  /** `StringJobProcessor.Process`: sleeps for a while, then returns nil. */
  function Process(job: Job): ProcessOutcome {
    Success
  }

  /** The globals `jobIDCounter`, `jobStatuses` and `jobQueue`, with the channel's buffer
      size and whether `close(jobQueue)` has run. */
  class JobServer {
    var counter: int
    var statuses: map<int, Status>
    var queue: seq<Job>
    const capacity: nat
    var closed: bool

    function Abstract(): Lifecycle.State
      reads this
    {
      Lifecycle.State(counter, statuses, queue)
    }

    ghost predicate Valid()
      reads this
    {
      Lifecycle.Inv(Abstract(), capacity)
    }

    /** The zero-valued globals and `make(chan Job, 100)` of `main`. */
    constructor ()
      ensures Valid() && !closed
      ensures Abstract() == Lifecycle.Initial
      ensures capacity == Lifecycle.QueueCapacity
    {
      counter := 0;
      statuses := map[];
      queue := [];
      capacity := Lifecycle.QueueCapacity;
      closed := false;
    }

    /** `createJobHandler`: refuses a non-POST, then an undecodable body; otherwise takes the
        next id, stores "pending" and sends the job. Sending on a full channel blocks and
        sending on a closed one panics, so neither is allowed here; refused requests touch
        no channel and are answered after close as before. */
    method CreateJob(req: Request) returns (out: SubmitOutcome)
      requires Valid()
      requires !closed || Lifecycle.Submit(Abstract(), req).outcome.Rejected?
      requires Lifecycle.SubmitProceeds(Abstract(), capacity, req)
      modifies this
      ensures Valid() && closed == old(closed)
      ensures Lifecycle.Submission(Abstract(), out) == Lifecycle.Submit(old(Abstract()), req)
      ensures Lifecycle.Advanced(old(statuses), statuses)
    {
      Lifecycle.SubmitKeepsInv(Abstract(), capacity, req);
      if req.httpMethod != Post {
        return Rejected(MethodNotAllowed);
      }
      if req.body.Undecodable? {
        return Rejected(BadRequest);
      }
      if counter == MaxInt32 {
        return Rejected(IdsExhausted);
      }
      counter := counter + 1;
      var id := counter;
      statuses := statuses[id := Pending];
      queue := queue + [Job(id, req.body.payload)];
      out := Accepted(id);
    }

    /** `jobStatusHandler`, given the parsed id: the stored status, or not found. */
    method JobStatus(id: int) returns (r: QueryResult)
      requires Valid()
      ensures r == Lifecycle.Lookup(Abstract(), id)
      ensures r.Found? <==> 1 <= id <= counter
    {
      if id in statuses {
        r := Found(statuses[id]);
      } else {
        r := NotFound;
      }
    }

    /** One receive of `for job := range jobQueue` and the "processing" store after it.
        A receive on an open, empty channel blocks; on a closed, empty one it ends the loop. */
    method Receive() returns (r: Option<Job>)
      requires Valid()
      requires |queue| > 0 || closed
      modifies this
      ensures Valid() && closed == old(closed)
      ensures old(|queue|) > 0 ==> r == Some(old(queue[0])) && Abstract() == Lifecycle.Start(old(Abstract())).state
      ensures old(|queue|) == 0 ==> r == None && Abstract() == old(Abstract())
      ensures Lifecycle.Advanced(old(statuses), statuses)
    {
      if |queue| == 0 {
        return None;
      }
      Lifecycle.StartKeepsInv(Abstract(), capacity);
      var job := queue[0];
      queue := queue[1..];
      statuses := statuses[job.id := Processing];
      r := Some(job);
    }

    /** The store after `Process` returns: "failed" on an error, "completed" on nil. Only the
        worker that received the job, whose status is "processing", does this. */
    method Finish(job: Job, outcome: ProcessOutcome)
      requires Valid()
      requires job.id in statuses && statuses[job.id] == Processing
      modifies this
      ensures Valid() && closed == old(closed)
      ensures Abstract() == Lifecycle.Finish(old(Abstract()), job.id, outcome)
      ensures Lifecycle.Advanced(old(statuses), statuses)
    {
      Lifecycle.FinishKeepsInv(Abstract(), capacity, job.id, outcome);
      if outcome == Failure {
        statuses := statuses[job.id := Failed];
        return;
      }
      statuses := statuses[job.id := Completed];
    }

    /** `close(jobQueue)` in the shutdown goroutine; it runs once, since closing twice panics. */
    method Close()
      requires Valid() && !closed
      modifies this`closed
      ensures Valid() && closed
    {
      closed := true;
    }

    /** `worker` once the channel is closed, with no other goroutine running: it keeps
        receiving in FIFO order until the buffer is empty, and the real `Process` completes
        every job. */
    method Worker()
      requires Valid() && closed
      modifies this
      ensures Valid() && closed
      ensures queue == []
      ensures Abstract() == Lifecycle.Drain(old(Abstract()), |old(queue)|)
      ensures Lifecycle.Advanced(old(statuses), statuses)
      ensures forall i :: 0 <= i < |old(queue)| ==> statuses[old(queue)[i].id] == Completed
      ensures forall id :: id in old(statuses) && old(statuses)[id] != Pending ==> statuses[id] == old(statuses)[id]
    {
      ghost var k := 0;
      while true
        invariant Valid() && closed
        invariant k <= |old(queue)|
        invariant Abstract() == Lifecycle.Drain(old(Abstract()), k)
        decreases |queue|
      {
        var r := Receive();
        if r.None? {
          break;
        }
        var job := r.value;
        Finish(job, Process(job));
        k := k + 1;
      }
      Lifecycle.DrainSpec(old(Abstract()), capacity, k);
    }
  }

  /** Submit "A" and "B" to a fresh server, poll, run one job, poll again. */
  method SubmitAndPoll() {
    var srv := new JobServer();
    var a := srv.CreateJob(Request(Post, Decoded("A")));
    assert a == Accepted(1);
    var b := srv.CreateJob(Request(Post, Decoded("B")));
    assert b == Accepted(2);
    var q := srv.JobStatus(1);
    assert q == Found(Pending);
    var r := srv.Receive();
    assert r == Some(Job(1, "A"));
    srv.Finish(r.value, Process(r.value));
    q := srv.JobStatus(1);
    assert q == Found(Completed);
    q := srv.JobStatus(999);
    assert q == NotFound;
  }
}
