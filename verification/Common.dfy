/** Shared vocabulary: optional columns and identities.
    Every UUID is a natural number (the canonical text of a UUID orders as its 128-bit value). */
module Common {
  datatype Option<+T> = None | Some(value: T) {
    function GetOr(default: T): T {
      if Some? then value else default
    }
  }

  type Time = int
  type MessageId = nat
  type ExecutionId = nat
  type Token = nat
  type LogItemId = nat
  type EngineId = nat
}
