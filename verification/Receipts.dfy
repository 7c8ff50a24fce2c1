/** Receipts, the fate of a durable write, and the outcome a caller of a store sees. */
module Receipts {
  datatype ExecutionOutcome = ExecutionOutcome(status: string, exitCode: int, category: string, message: string)

  /** What `terminalOutcomeEvent` and `receiptMatchesMutationRecord` compare of a receipt. */
  datatype Identity = Identity(
    actor: string, target: string, kind: string, fingerprint: string,
    idempotencyFingerprint: string, key: string, opClass: string)

  datatype Receipt = Receipt(
    id: string, identity: Identity, outcome: ExecutionOutcome, rollbackRef: string,
    backend: string, startedAt: int, completedAt: int, observation: string, evidence: seq<string>, redaction: string)

  /** A durable write completes, fails leaving nothing behind, or fails (or the process stops) after its
      bytes are in place. */
  datatype Fate = Completes | FailsBefore | FailsAfter

  datatype Outcome = Done | Conflict | Unavailable

  function Head(fates: seq<Fate>): Fate { if fates == [] then Completes else fates[0] }

  function Tail(fates: seq<Fate>): seq<Fate> { if fates == [] then [] else fates[1..] }

  predicate Writes(fates: seq<Fate>) { !Head(fates).FailsBefore? }

  function Result(fates: seq<Fate>): Outcome { if Head(fates).Completes? then Done else Unavailable }
}
