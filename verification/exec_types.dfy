/** Values shared by the whole exec pipeline: bytes, output chunks and the lifecycle of an exec. */
module ExecTypes {

  type byte = x: int | 0 <= x < 256

  type int32 = x: int | -0x8000_0000 <= x < 0x8000_0000

  /** Upper bound on captured output per exec: 100 MiB. */
  const MAX_OUTPUT_BYTES_HARD: int := 100 * 1024 * 1024

  /** Slots in a subscriber's channel. */
  const SUBSCRIBER_SLOTS: nat := 64

  datatype Option<+T> = None | Some(value: T)

  datatype Result<+T, +E> = Ok(value: T) | Err(error: E)

  datatype ChunkKind = Stdout | Stderr | Done

  /** One entry of an exec's log. `exitCode` means something only when `kind` is `Done`. */
  datatype Chunk = Chunk(seqNo: nat, kind: ChunkKind, data: seq<byte>, exitCode: int32)

  datatype Status = Running | Completed | Errored

  function Min(a: int, b: int): int {
    if a <= b then a else b
  }

  /** A non-blocking send to a channel with `slots` slots: dropped when the buffer is full. */
  function Offered<T>(buffer: seq<T>, slots: nat, x: T): seq<T> {
    if |buffer| < slots then buffer + [x] else buffer
  }
}
