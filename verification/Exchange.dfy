/**
 The HTTP exchange both durable clients share: what one transmission of a command meant
 to the server, and what the client could observe of it.
 */
module Exchange {
  import opened Prelude

  /** An idempotency key; a fresh UUID is a number never handed out before. */
  type Key = nat
  type OperationId = nat

  datatype Code =
    | PublicationOutcomeUnknown | InvalidTransition | RunExpired | RevisionConflict
    | Unauthenticated | Forbidden | ReceiptMismatch | StaleFence | VersionConflict | OtherCode

  /**
   What the server did with one transmission, decided once and for all: a transmission
   still in flight when the client stops listening is Accepted if it is ever accepted.
   */
  datatype Fate = Refused | Accepted | NeverArrived

  /**
   One transmission of a command. `run` is the run the session held when it sent the
   command and `rejection` the status of a complete 4xx response it read back.
   */
  datatype Send<+R> = Send(key: Key, request: R, run: Option<RunId>, fate: Fate, rejection: Option<int>)

  /** The server names a run after the key of the command that opened it, so a replayed key names the same run. */
  datatype RunId = RunId(openedBy: Key)
  datatype SubmissionId = CreatedBy(key: Key) | NamedByOperation(operation: OperationId)

  predicate ClientError(status: int) { 400 <= status < 500 }

  /** Every transmission of a key was refused with a complete 4xx response that the client read. */
  ghost predicate AllRefused<R>(sends: seq<Send<R>>, key: Key) {
    forall i :: 0 <= i < |sends| && sends[i].key == key ==>
      sends[i].fate.Refused? && sends[i].rejection.Some? && ClientError(sends[i].rejection.value)
  }

  ghost predicate NeverSent<R>(sends: seq<Send<R>>, key: Key) {
    forall i :: 0 <= i < |sends| ==> sends[i].key != key
  }
}
