/** The job lifecycle that both variants of the server implement: an id counter,
    a status registry and a bounded FIFO queue, and the atomic steps that change them.
    The classes in modules Server and Worker are proved to follow these steps. */
module Lifecycle {
  import opened Int32
  import opened Jobs

  /** The id counter, the status registry (id -> status) and the queued jobs, head first. */
  datatype State = State(counter: int, statuses: map<int, Status>, queue: seq<Job>)

  /** The buffer size both variants give the job channel. */
  const QueueCapacity: nat := 100

  /** A zero counter, an empty registry and an empty channel. */
  const Initial: State := State(0, map[], [])

  /** Queued ids strictly increase from head to tail. */
  predicate Ordered(q: seq<Job>) {
    forall i, j :: 0 <= i < j < |q| ==> q[i].id < q[j].id
  }

  predicate Queued(q: seq<Job>, id: int) {
    exists i :: 0 <= i < |q| && q[i].id == id
  }

  /** What every step keeps: the counter is a non-negative int32, the registry holds
      exactly the ids 1..counter, the queue is within capacity and in id order, and the
      pending jobs are exactly the queued ones. */
  ghost predicate Inv(s: State, cap: nat) {
    && 0 <= s.counter <= MaxInt32
    && |s.queue| <= cap
    && (forall id :: id in s.statuses <==> 1 <= id <= s.counter)
    && Ordered(s.queue)
    && (forall i :: 0 <= i < |s.queue| ==> s.queue[i].id in s.statuses && s.statuses[s.queue[i].id] == Pending)
    && (forall id :: id in s.statuses && s.statuses[id] == Pending ==> Queued(s.queue, id))
  }

  /** No entry disappears and every entry stays or moves forward. */
  predicate Advanced(before: map<int, Status>, after: map<int, Status>) {
    forall id :: id in before ==> id in after && Advances(before[id], after[id])
  }

  /** A registry lookup. */
  function Lookup(s: State, id: int): QueryResult {
    if id in s.statuses then Found(s.statuses[id]) else NotFound
  }

  datatype Submission = Submission(state: State, outcome: SubmitOutcome)

  /** A submission: a non-POST is refused, then an undecodable body, and otherwise the next id
      is taken, stored as pending and queued at the tail. Unlike the handlers, it refuses a
      submission once the counter is at MaxInt32 instead of wrapping (see SubmitAsWritten). */
  function Submit(s: State, req: Request): Submission {
    if req.httpMethod != Post then Submission(s, Rejected(MethodNotAllowed))
    else if req.body.Undecodable? then Submission(s, Rejected(BadRequest))
    else if s.counter >= MaxInt32 then Submission(s, Rejected(IdsExhausted))
    else
      var id := s.counter + 1;
      Submission(State(id, s.statuses[id := Pending], s.queue + [Job(id, req.body.payload)]), Accepted(id))
  }

  /** A submission exactly as the handlers perform it: the counter wraps like `atomic.AddInt32`. */
  function SubmitAsWritten(s: State, req: Request): Submission
    requires InRange(s.counter)
  {
    if req.httpMethod != Post then Submission(s, Rejected(MethodNotAllowed))
    else if req.body.Undecodable? then Submission(s, Rejected(BadRequest))
    else
      var id := AddInt32(s.counter, 1);
      Submission(State(id, s.statuses[id := Pending], s.queue + [Job(id, req.body.payload)]), Accepted(id))
  }

  /** Below the top of the id space the corrected submission is the handlers' own. */
  lemma SubmitAgreesBelowTop(s: State, req: Request)
    requires 0 <= s.counter < MaxInt32
    ensures SubmitAsWritten(s, req) == Submit(s, req)
  {
  }

  /** A submission that would be accepted sends on the channel, which blocks while it is full. */
  predicate SubmitProceeds(s: State, cap: nat, req: Request) {
    Submit(s, req).outcome.Rejected? || |s.queue| < cap
  }

  datatype Dequeued = Dequeued(state: State, job: Job)

  /** A worker receives the head of the queue and stores "processing" for it. */
  function Start(s: State): Dequeued
    requires |s.queue| > 0
  {
    var job := s.queue[0];
    Dequeued(State(s.counter, s.statuses[job.id := Processing], s.queue[1..]), job)
  }

  /** A worker stores the status that the outcome of `Process` calls for. */
  function Finish(s: State, id: int, o: ProcessOutcome): State {
    State(s.counter, s.statuses[id := Terminal(o)], s.queue)
  }

  /** One pass of a worker loop over the head job, with the given outcome. */
  function ProcessHead(s: State, o: ProcessOutcome): State
    requires |s.queue| > 0
  {
    var d := Start(s);
    Finish(d.state, d.job.id, o)
  }

  /** The first k queued jobs handled one after another by a processor that always succeeds. */
  function Drain(s: State, k: nat): (r: State)
    requires k <= |s.queue|
    ensures r.counter == s.counter
    ensures r.queue == s.queue[k..]
  {
    if k == 0 then s else ProcessHead(Drain(s, k - 1), Success)
  }

  /** The steps of the registry and the queue that goroutines take, one at a time. */
  datatype Event = SubmitEvent(req: Request) | StartEvent | FinishEvent(id: int, outcome: ProcessOutcome)

  /** A step can be taken: a send finds room, a receive finds a job, and only a job being
      processed (by the worker that received it) is finished. */
  predicate Enabled(s: State, cap: nat, e: Event) {
    match e
    case SubmitEvent(req) => SubmitProceeds(s, cap, req)
    case StartEvent => |s.queue| > 0
    case FinishEvent(id, _) => id in s.statuses && s.statuses[id] == Processing
  }

  function Apply(s: State, cap: nat, e: Event): State
    requires Enabled(s, cap, e)
  {
    match e
    case SubmitEvent(req) => Submit(s, req).state
    case StartEvent => Start(s).state
    case FinishEvent(id, o) => Finish(s, id, o)
  }

  /** The state after taking the events in order, or None if one of them cannot be taken. */
  function Run(s: State, cap: nat, es: seq<Event>): Option<State>
    decreases |es|
  {
    if es == [] then Some(s)
    else if Enabled(s, cap, es[0]) then Run(Apply(s, cap, es[0]), cap, es[1..])
    else None
  }

  // ---------------------------------------------------------------------------
  // Single steps

  /** What an accepted or rejected submission does, read against the invariant. */
  lemma SubmitSpec(s: State, cap: nat, req: Request)
    requires Inv(s, cap)
    ensures var r := Submit(s, req);
      && (r.outcome.Accepted? <==> req.httpMethod == Post && req.body.Decoded? && s.counter < MaxInt32)
      && (r.outcome.Rejected? ==> r.state == s)
      && (r.outcome.Accepted? ==>
            var id := r.outcome.id;
            && id == s.counter + 1 && id >= 1
            && id !in s.statuses
            && (forall k :: k in s.statuses ==> k < id)
            && r.state.counter == id
            && Lookup(r.state, id) == Found(Pending)
            && (forall k :: k != id ==> Lookup(r.state, k) == Lookup(s, k))
            && r.state.queue == s.queue + [Job(id, req.body.payload)])
  {
  }

  /** At the top of the id space the corrected submission refuses and changes nothing. */
  lemma SubmitAtLimitRejects(s: State, cap: nat, req: Request)
    requires Inv(s, cap) && s.counter == MaxInt32
    requires req.httpMethod == Post && req.body.Decoded?
    ensures Submit(s, req) == Submission(s, Rejected(IdsExhausted))
    ensures Inv(Submit(s, req).state, cap)
  {
  }

  lemma SubmitKeepsInv(s: State, cap: nat, req: Request)
    requires Inv(s, cap) && SubmitProceeds(s, cap, req)
    ensures Inv(Submit(s, req).state, cap)
    ensures Advanced(s.statuses, Submit(s, req).state.statuses)
  {
    var r := Submit(s, req);
    if r.outcome.Accepted? {
      var t := r.state;
      var id := r.outcome.id;
      assert t.queue[|t.queue| - 1].id == id;
      forall i | 0 <= i < |s.queue|
        ensures s.queue[i].id < id
      {
        assert s.queue[i].id in s.statuses;
      }
      forall k | k in t.statuses && t.statuses[k] == Pending
        ensures Queued(t.queue, k)
      {
        if k == id {
          assert t.queue[|t.queue| - 1].id == k;
        } else {
          var i :| 0 <= i < |s.queue| && s.queue[i].id == k;
          assert t.queue[i].id == k;
        }
      }
    }
  }

  /** A receive removes exactly the head, marks it processing and touches no other entry. */
  lemma StartSpec(s: State, cap: nat)
    requires Inv(s, cap) && |s.queue| > 0
    ensures var d := Start(s);
      && d.job == s.queue[0]
      && d.state.queue == s.queue[1..]
      && d.state.counter == s.counter
      && Lookup(s, d.job.id) == Found(Pending)
      && Lookup(d.state, d.job.id) == Found(Processing)
      && (forall k :: k != d.job.id ==> Lookup(d.state, k) == Lookup(s, k))
  {
  }

  lemma StartKeepsInv(s: State, cap: nat)
    requires Inv(s, cap) && |s.queue| > 0
    ensures Inv(Start(s).state, cap)
    ensures Advanced(s.statuses, Start(s).state.statuses)
  {
  }

  /** Finishing stores "failed" for an error and "completed" for nil, and nothing else changes. */
  lemma FinishSpec(s: State, cap: nat, id: int, o: ProcessOutcome)
    requires Inv(s, cap) && id in s.statuses && s.statuses[id] == Processing
    ensures var t := Finish(s, id, o);
      && Lookup(t, id) == Found(if o == Failure then Failed else Completed)
      && (forall k :: k != id ==> Lookup(t, k) == Lookup(s, k))
      && t.queue == s.queue && t.counter == s.counter
  {
  }

  lemma FinishKeepsInv(s: State, cap: nat, id: int, o: ProcessOutcome)
    requires Inv(s, cap) && id in s.statuses && s.statuses[id] == Processing
    ensures Inv(Finish(s, id, o), cap)
    ensures Advanced(s.statuses, Finish(s, id, o).statuses)
  {
  }

  lemma StepKeepsInv(s: State, cap: nat, e: Event)
    requires Inv(s, cap) && Enabled(s, cap, e)
    ensures Inv(Apply(s, cap, e), cap)
    ensures Advanced(s.statuses, Apply(s, cap, e).statuses)
    ensures s.counter <= Apply(s, cap, e).counter
  {
    match e
    case SubmitEvent(req) => SubmitKeepsInv(s, cap, req);
    case StartEvent => StartKeepsInv(s, cap);
    case FinishEvent(id, o) => FinishKeepsInv(s, cap, id, o);
  }

  // ---------------------------------------------------------------------------
  // Runs of steps

  lemma AdvancedTransitive(a: map<int, Status>, b: map<int, Status>, c: map<int, Status>)
    requires Advanced(a, b) && Advanced(b, c)
    ensures Advanced(a, c)
  {
  }

  /** Every run keeps the invariant, only moves statuses forward and never lowers the counter. */
  lemma {:induction false} RunKeepsInv(s: State, cap: nat, es: seq<Event>, t: State)
    requires Inv(s, cap) && Run(s, cap, es) == Some(t)
    ensures Inv(t, cap)
    ensures Advanced(s.statuses, t.statuses)
    ensures s.counter <= t.counter
    decreases |es|
  {
    if es != [] {
      var s' := Apply(s, cap, es[0]);
      StepKeepsInv(s, cap, es[0]);
      RunKeepsInv(s', cap, es[1..], t);
      AdvancedTransitive(s.statuses, s'.statuses, t.statuses);
    }
  }

  /** Polling an id during any run: once found, it stays found, and the status seen later
      is the one seen earlier or a later stage of it. */
  lemma PollingIsMonotone(s: State, cap: nat, es: seq<Event>, t: State, id: int)
    requires Inv(s, cap) && Run(s, cap, es) == Some(t)
    requires Lookup(s, id).Found?
    ensures Lookup(t, id).Found?
    ensures Advances(Lookup(s, id).status, Lookup(t, id).status)
  {
    RunKeepsInv(s, cap, es, t);
  }

  /** Two accepted submissions with any steps in between: the later id is larger. */
  lemma SuccessiveIdsIncrease(s: State, cap: nat, first: Request, es: seq<Event>, t: State, second: Request)
    requires Inv(s, cap) && SubmitProceeds(s, cap, first)
    requires Submit(s, first).outcome.Accepted?
    requires Run(Submit(s, first).state, cap, es) == Some(t)
    requires Submit(t, second).outcome.Accepted?
    ensures Submit(s, first).outcome.id < Submit(t, second).outcome.id
  {
    SubmitKeepsInv(s, cap, first);
    RunKeepsInv(Submit(s, first).state, cap, es, t);
  }

  /** Right after a submission is accepted, a lookup of its id finds it, and it keeps being
      found for the rest of any run. */
  lemma AcceptedIdStaysFound(s: State, cap: nat, req: Request, es: seq<Event>, t: State)
    requires Inv(s, cap) && SubmitProceeds(s, cap, req)
    requires Submit(s, req).outcome.Accepted?
    requires Run(Submit(s, req).state, cap, es) == Some(t)
    ensures Lookup(t, Submit(s, req).outcome.id).Found?
  {
    SubmitKeepsInv(s, cap, req);
    PollingIsMonotone(Submit(s, req).state, cap, es, t, Submit(s, req).outcome.id);
  }

  /** A lookup finds exactly the ids that were issued. */
  lemma LookupSpec(s: State, cap: nat, id: int)
    requires Inv(s, cap)
    ensures Lookup(s, id).Found? <==> 1 <= id <= s.counter
  {
  }

  // ---------------------------------------------------------------------------
  // Draining the queue

  /** The registry m after the first k queued jobs of s were handled successfully: the same ids,
      exactly those k jobs completed, the remaining queued jobs pending, every other entry as in s. */
  ghost predicate DrainedStatuses(s: State, k: nat, m: map<int, Status>)
    requires k <= |s.queue|
  {
    && (forall id :: id in m <==> id in s.statuses)
    && (forall i :: 0 <= i < k ==> s.queue[i].id in m && m[s.queue[i].id] == Completed)
    && (forall i :: k <= i < |s.queue| ==> s.queue[i].id in m && m[s.queue[i].id] == Pending)
    && (forall id :: id in s.statuses && s.statuses[id] != Pending ==> id in m && m[id] == s.statuses[id])
  }

  /** Handling the first k queued jobs with a processor that always succeeds keeps the
      invariant, moves statuses forward and changes exactly those k entries, to completed. */
  lemma {:induction false} DrainSpec(s: State, cap: nat, k: nat)
    requires Inv(s, cap) && k <= |s.queue|
    ensures Inv(Drain(s, k), cap)
    ensures Advanced(s.statuses, Drain(s, k).statuses)
    ensures DrainedStatuses(s, k, Drain(s, k).statuses)
    decreases k
  {
    if k > 0 {
      DrainSpec(s, cap, k - 1);
      var p := Drain(s, k - 1);
      assert p.queue[0] == s.queue[k - 1];
      ProcessHeadKeepsInv(p, cap);
      AdvancedTransitive(s.statuses, p.statuses, Drain(s, k).statuses);
      DrainStepStatuses(s, cap, k, p.statuses, Drain(s, k).statuses);
    }
  }

  /** One successful pass over the head keeps the invariant and only completes the head. */
  lemma ProcessHeadKeepsInv(p: State, cap: nat)
    requires Inv(p, cap) && |p.queue| > 0
    ensures Inv(ProcessHead(p, Success), cap)
    ensures Advanced(p.statuses, ProcessHead(p, Success).statuses)
    ensures ProcessHead(p, Success).statuses == p.statuses[p.queue[0].id := Completed]
  {
  }

  /** One more pass of DrainSpec: only the k-th queued id changes, to completed. */
  lemma DrainStepStatuses(s: State, cap: nat, k: nat, p: map<int, Status>, r: map<int, Status>)
    requires Inv(s, cap) && 0 < k <= |s.queue|
    requires DrainedStatuses(s, k - 1, p)
    requires r == p[s.queue[k - 1].id := Completed]
    ensures DrainedStatuses(s, k, r)
  {
  }

  // ---------------------------------------------------------------------------
  // Reaching the top of the id space

  /** A registry holding ids 1..n, all completed. */
  function Completions(n: nat): map<int, Status>
    decreases n
  {
    if n == 0 then map[] else Completions(n - 1)[n := Completed]
  }

  lemma {:induction false} CompletionsSpec(n: nat)
    ensures forall id :: id in Completions(n) <==> 1 <= id <= n
    ensures forall id :: id in Completions(n) ==> Completions(n)[id] == Completed
    decreases n
  {
    if n > 0 {
      CompletionsSpec(n - 1);
    }
  }

  /** A counter at n, ids 1..n completed and an empty queue. */
  function AllCompleted(n: nat): State {
    State(n, Completions(n), [])
  }

  /** n rounds of: submit an empty payload, receive it, finish it successfully. */
  function Cycles(from: int, n: nat): seq<Event>
    decreases n
  {
    if n == 0 then []
    else [SubmitEvent(Request(Post, Decoded(""))), StartEvent, FinishEvent(from + 1, Success)] + Cycles(from + 1, n - 1)
  }

  /** Any counter value up to MaxInt32 is reachable with an empty queue. */
  lemma {:induction false} CyclesReach(k: nat, n: nat)
    requires k + n <= MaxInt32
    ensures Run(AllCompleted(k), QueueCapacity, Cycles(k, n)) == Some(AllCompleted(k + n))
    decreases n
  {
    if n > 0 {
      var es := Cycles(k, n);
      var rest := Cycles(k + 1, n - 1);
      var s0 := AllCompleted(k);
      var req := Request(Post, Decoded(""));
      var s1 := State(k + 1, Completions(k)[k + 1 := Pending], [Job(k + 1, "")]);
      var s2 := State(k + 1, Completions(k)[k + 1 := Processing], []);
      var s3 := State(k + 1, Completions(k)[k + 1 := Completed], []);
      assert es[0] == SubmitEvent(req) && Submit(s0, req).state == s1;
      assert Run(s0, QueueCapacity, es) == Run(s1, QueueCapacity, es[1..]);
      assert es[1..][0] == StartEvent && Start(s1).state.statuses == Completions(k)[k + 1 := Processing];
      assert Run(s1, QueueCapacity, es[1..]) == Run(s2, QueueCapacity, es[2..]);
      assert es[2..][0] == FinishEvent(k + 1, Success) && es[2..][1..] == rest;
      assert Finish(s2, k + 1, Success).statuses == Completions(k)[k + 1 := Completed];
      assert Run(s2, QueueCapacity, es[2..]) == Run(s3, QueueCapacity, rest);
      assert s3 == AllCompleted(k + 1);
      CyclesReach(k + 1, n - 1);
    }
  }

  /** The submission that follows 2147483647 accepted ones gets the negative id -2147483648
      from the wrapped counter, and the registry then holds a key outside 1..counter. */
  lemma AsWrittenIdWraps(payload: string)
    ensures Run(Initial, QueueCapacity, Cycles(0, MaxInt32)) == Some(AllCompleted(MaxInt32))
    ensures var r := SubmitAsWritten(AllCompleted(MaxInt32), Request(Post, Decoded(payload)));
      && r.outcome == Accepted(MinInt32)
      && !Inv(r.state, QueueCapacity)
  {
    assert AllCompleted(0) == Initial;
    CyclesReach(0, MaxInt32);
  }

  /** The corrected submission, from the same reachable state, refuses instead. */
  lemma CorrectedIdNeverWraps(payload: string)
    ensures var r := Submit(AllCompleted(MaxInt32), Request(Post, Decoded(payload)));
      && r.outcome == Rejected(IdsExhausted)
      && Inv(r.state, QueueCapacity)
  {
    CompletionsSpec(MaxInt32);
    assert Inv(AllCompleted(MaxInt32), QueueCapacity);
  }
}
