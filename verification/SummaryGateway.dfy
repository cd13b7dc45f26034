/** What a submission is about (app/services/summarization_gateway.py). */
module SummaryGateway {

  datatype Operation = Operation(kind: string, ordinal: int, prompt: string)

  /** The material that is hashed into an idempotency key.  SHA-256 itself stays
      symbolic: a stored key is represented by its pre-image, whose byte
      encoding is the subject of module Idempotency. */
  datatype Key = Key(stageId: int, epoch: int, kind: string, ordinal: int)

  /** `SummaryGatewayContext` */
  datatype Context = Context(stageId: int, epoch: int)

  function KeyOf(stageId: int, epoch: int, operation: Operation): Key {
    Key(stageId, epoch, operation.kind, operation.ordinal)
  }

  /** A task identifier from a validated `Location` header: the pattern it must
      match is never longer than the column, so storing never truncates it. */
  type TaskId = s: string | 1 <= |s| <= 128 witness "t"

  const SINGLE := "traffic"
  const PARTIAL := "traffic_partial"
  const FINAL := "traffic_final"
}
