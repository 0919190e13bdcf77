/** Two's-complement 32-bit integers, as far as the job id counter uses them. */
module Int32 {
  const MinInt32: int := -0x8000_0000
  const MaxInt32: int := 0x7fff_ffff

  predicate InRange(x: int) {
    MinInt32 <= x <= MaxInt32
  }

  /** The value `atomic.AddInt32` stores and returns: the sum wrapped into 32 bits. */
  function AddInt32(a: int, b: int): (r: int)
    requires InRange(a) && InRange(b)
    ensures InRange(r)
    ensures InRange(a + b) ==> r == a + b
    ensures a + b > MaxInt32 ==> r == a + b - 0x1_0000_0000
    ensures a + b < MinInt32 ==> r == a + b + 0x1_0000_0000
  {
    (a + b - MinInt32) % 0x1_0000_0000 + MinInt32
  }
}

/** The values both variants of the server pass around. */
module Jobs {
  datatype Option<T> = None | Some(value: T)

  /** The status strings "pending", "processing", "completed" and "failed". */
  datatype Status = Pending | Processing | Completed | Failed

  /** A submitted unit of work. */
  datatype Job = Job(id: int, payload: string)

  /** What `JobProcessor.Process` returns: `nil` or an error. */
  datatype ProcessOutcome = Success | Failure

  /** A submission request, reduced to what the create handler inspects:
      whether it is a POST, and whether its body decodes to a `payload` string. */
  datatype HttpMethod = Post | OtherMethod
  datatype Body = Decoded(payload: string) | Undecodable
  datatype Request = Request(httpMethod: HttpMethod, body: Body)

  /** Why a submission was turned away: 405, 400, or the id space is used up. */
  datatype Rejection = MethodNotAllowed | BadRequest | IdsExhausted
  datatype SubmitOutcome = Accepted(id: int) | Rejected(reason: Rejection)

  /** What the status handler answers: the stored status, or 404. */
  datatype QueryResult = Found(status: Status) | NotFound

  /** The status a worker stores once `Process` has returned. */
  function Terminal(o: ProcessOutcome): Status {
    if o == Failure then Failed else Completed
  }

  predicate IsTerminal(st: Status) {
    st == Completed || st == Failed
  }

  /** `b` is `a` or a later stage of pending -> processing -> completed | failed. */
  predicate Advances(a: Status, b: Status) {
    a == b || a == Pending || (a == Processing && IsTerminal(b))
  }
}
