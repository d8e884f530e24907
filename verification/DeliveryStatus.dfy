/** Outcomes of one delivery attempt, as the server's error values carry them. */
module DeliveryStatus {

  /** The reason codes the shared planner distinguishes; every other code is opaque. */
  datatype Code =
    | QuotaExceeded
    | NotAuthorized
    | PendingWritesExceeded
    | Disconnected
    | OtherCode(number: nat)

  /** A Go error value: a code, or context wrapped around a cause with `%w`. */
  datatype Error = Plain(code: Code) | Wrapped(context: string, cause: Error)

  datatype Status = Ok | Failed(error: Error)

  /** errors.Is: some error on the unwrap chain equals the code. */
  predicate Is(e: Error, c: Code) {
    match e
    case Plain(d) => d == c
    case Wrapped(_, cause) => Is(cause, c)
  }

  predicate IsSafeFailure(e: Error) {
    || Is(e, QuotaExceeded)
    || Is(e, NotAuthorized)
    || Is(e, PendingWritesExceeded)
    || Is(e, Disconnected)
  }

  /** The code at the bottom of the unwrap chain. */
  function RootCode(e: Error): Code {
    match e
    case Plain(c) => c
    case Wrapped(_, cause) => RootCode(cause)
  }

  /** However deep the wrapping, the failure is fallback-eligible exactly for these four codes. */
  lemma {:induction false} SafeFailureCodes(e: Error)
    ensures forall c :: Is(e, c) <==> c == RootCode(e)
    ensures IsSafeFailure(e) <==> RootCode(e) in {QuotaExceeded, NotAuthorized, PendingWritesExceeded, Disconnected}
  {
    if e.Wrapped? { SafeFailureCodes(e.cause); }
  }

  /** The attempt failed before the member could have accepted anything. */
  predicate Safe(s: Status) {
    s.Failed? && IsSafeFailure(s.error)
  }

  /** The attempt may have been accepted although an error came back. */
  predicate Ambiguous(s: Status) {
    s.Failed? && !IsSafeFailure(s.error)
  }
}
