/** Shared result types, where a queue lives, and what synchronizing with the device reports. */
module Common {
  datatype Option<+T> = None | Some(value: T)

  datatype Result<+T, +E> = Ok(value: T) | Err(error: E)

  /** A queue with the stream and the device context it was made for. */
  datatype Origin = Origin(queue: nat, stream: nat, context: nat)

  /** What synchronizing with the device told the host: which wait answered, or that none did. */
  datatype Sync = EventDone | StreamDone | ContextDone | Dead

  /** Without a usable event: the stream first, then the whole context, and otherwise the process aborts. */
  function Fallback(streamOk: bool, contextOk: bool): Sync
  {
    if streamOk then StreamDone else if contextOk then ContextDone else Dead
  }
}
