/** Error and result values shared by the stream buffers. */
module BufferTypes {
  import opened Options

  /** The error a buffer was closed with. */
  datatype Cause = ClosedPipe | Custom(code: int)

  /** What a call reports when it does not succeed. */
  datatype Failure =
    | ReadFromClosed(cause: Cause)
    | WriteToClosed(cause: Cause)
    | SkipFromClosed(cause: Cause)
    | EndOfFile
    | IteratorDone

  /** The result of one pass through a call's critical section. `Blocks` means the
      caller goes to sleep and repeats the pass after it has been woken. */
  datatype Outcome<+T> = Done(value: T) | Failed(why: Failure) | Blocks

  /** Why a writer is turned away, if it is. */
  function WriteRefusal(closeErr: Option<Cause>, closeWrite: bool): (r: Option<Failure>)
    ensures r.None? <==> closeErr.None? && !closeWrite
    ensures closeErr.Some? ==> r == Some(WriteToClosed(closeErr.value))
  {
    match closeErr
    case Some(c) => Some(WriteToClosed(c))
    case None => if closeWrite then Some(WriteToClosed(ClosedPipe)) else None
  }
}
