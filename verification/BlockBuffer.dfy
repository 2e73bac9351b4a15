/** The blocking ring (pkgs/buffer/block_buffer.go). Every call is a series of passes
    through the critical section: a pass either returns or goes to sleep on the
    condition variable, and after a wake-up the same pass is made again. */
module BlockBuffers {
  import opened BufferTypes
  import opened Options
  import opened RingWindow

  /** What the mutex protects, with the ring read as a sequence. */
  datatype Shared<T> = Shared(ring: seq<T>, closeWrite: bool, closeErr: Option<Cause>)

  function Min(a: nat, b: nat): (m: nat)
    ensures m <= a && m <= b && (m == a || m == b)
  {
    if a <= b then a else b
  }

  /** How many elements one pass of Write (or of Add, for one element) stores. */
  function PutCount<T>(s: Shared<T>, cap: nat, p: seq<T>): (n: nat)
    requires |s.ring| <= cap
    ensures n <= |p| && |s.ring| + n <= cap
    ensures n == 0 || WriteRefusal(s.closeErr, s.closeWrite).None?
    ensures WriteRefusal(s.closeErr, s.closeWrite).None? ==> n == |p| || |s.ring| + n == cap
  {
    if WriteRefusal(s.closeErr, s.closeWrite).Some? then 0 else Min(|p|, cap - |s.ring|)
  }

  /** How one pass of Write or Add ends. */
  function PutOutcome<T>(s: Shared<T>, cap: nat, p: seq<T>): (r: Outcome<()>)
    requires |s.ring| <= cap
    ensures r.Blocks? <==> WriteRefusal(s.closeErr, s.closeWrite).None? && PutCount(s, cap, p) < |p|
    ensures r.Blocks? ==> |s.ring| + PutCount(s, cap, p) == cap
  {
    match WriteRefusal(s.closeErr, s.closeWrite)
    case Some(f) => Failed(f)
    case None => if PutCount(s, cap, p) == |p| then Done(()) else Blocks
  }

  /** How many elements one pass of Read (at most `max`) or Next (`max` is 1) takes. */
  function TakeCount<T>(s: Shared<T>, max: nat): (n: nat)
    ensures n <= |s.ring| && n <= max
    ensures if s.closeErr.Some? then n == 0 else n == max || n == |s.ring|
  {
    if s.closeErr.Some? then 0 else Min(max, |s.ring|)
  }

  /** How one pass of Read or Next ends; `drained` is its report of a drained, closed ring. */
  function TakeOutcome<T>(s: Shared<T>, drained: Failure): (r: Outcome<()>)
    ensures r.Blocks? <==> s.closeErr.None? && !s.closeWrite && s.ring == []
    ensures r.Done? <==> s.closeErr.None? && s.ring != []
  {
    if s.closeErr.Some? then Failed(ReadFromClosed(s.closeErr.value))
    else if s.ring != [] then Done(())
    else if s.closeWrite then Failed(drained)
    else Blocks
  }

  class BlockBuffer<T> {
    const buf: array<T>
    var head: nat
    var tail: nat
    var closeWrite: bool
    var closeErr: Option<Cause>
    ghost var Contents: seq<T>  // the buffered elements, oldest first

    ghost predicate Valid()
      reads this, buf
    {
      && 0 < buf.Length
      && tail == head + |Contents|
      && Holds(buf[..], Phase(head, buf.Length), Contents)
      && (closeErr.Some? ==> closeWrite)
    }

    ghost function State(): (s: Shared<T>)
      reads this
    {
      Shared(Contents, closeWrite, closeErr)
    }

    /** Block: the storage is the caller's. */
    constructor (storage: array<T>)
      requires storage.Length > 0
      ensures Valid() && buf == storage && State() == Shared([], false, None)
    {
      buf := storage;
      head, tail, closeWrite, closeErr, Contents := 0, 0, false, None, [];
    }

    /** One pass of Write over what is left of its input. `signals` reports the wake-up
        it gives. */
    method Write(p: seq<T>) returns (n: nat, r: Outcome<()>, signals: bool)
      requires Valid()
      modifies this`tail, this`Contents, buf
      ensures Valid()
      ensures n == PutCount(old(State()), buf.Length, p) && r == PutOutcome(old(State()), buf.Length, p)
      ensures Contents == old(Contents) + p[..n]
      ensures signals <==> n > 0
    {
      n, signals := 0, false;
      if closeErr.Some? {
        return n, Failed(WriteToClosed(closeErr.value)), false;
      }
      if closeWrite {
        return n, Failed(WriteToClosed(ClosedPipe)), false;
      }
      while n < |p|
        invariant Valid() && n <= |p| && (signals <==> n > 0)
        invariant Contents == old(Contents) + p[..n]
      {
        if tail - head == buf.Length {
          return n, Blocks, signals;
        }
        var m := StoreSome(p[n..]);
        assert p[..n] + p[n..][..m] == p[..n + m];
        n := n + m;
        signals := true;
      }
      return n, Done(()), signals;
    }

    /** The body of Write's loop: free slots take a prefix of `p`. */
    method StoreSome(p: seq<T>) returns (n: nat)
      requires Valid() && |Contents| < buf.Length && p != []
      modifies this`tail, this`Contents, buf
      ensures Valid() && n == Min(|p|, buf.Length - |old(Contents)|)
      ensures Contents == old(Contents) + p[..n]
    {
      ghost var a := buf[..];
      AdvanceSlot(head, |Contents|, buf.Length);
      var avail := buf.Length - (tail - head);
      var at := SlotOf(tail, buf.Length);
      n := CopyInWrapped(buf, at, avail, p);
      StoreAppends(a, Phase(head, buf.Length), Contents, p[..n], buf[..]);
      tail := tail + n;
      Contents := Contents + p[..n];
    }

    /** One pass of Add: a write of one element. */
    method Add(t: T) returns (r: Outcome<()>, signals: bool)
      requires Valid()
      modifies this`tail, this`Contents, buf
      ensures Valid()
      ensures r == PutOutcome(old(State()), buf.Length, [t])
      ensures Contents == old(Contents) + [t][..PutCount(old(State()), buf.Length, [t])]
      ensures signals <==> r.Done?
    {
      if closeErr.Some? {
        return Failed(WriteToClosed(closeErr.value)), false;
      }
      if closeWrite {
        return Failed(WriteToClosed(ClosedPipe)), false;
      }
      if tail - head == buf.Length {
        return Blocks, false;
      }
      ghost var a := buf[..];
      AdvanceSlot(head, |Contents|, buf.Length);
      var at := SlotOf(tail, buf.Length);
      buf[at] := t;
      StoreAppends(a, Phase(head, buf.Length), Contents, [t], buf[..]);
      tail := tail + 1;
      Contents := Contents + [t];
      assert [t][..1] == [t];
      return Done(()), true;
    }

    /** One pass of Read. A read that takes nothing because `p` is empty still signals. */
    method Read(p: array<T>) returns (n: nat, r: Outcome<()>, signals: bool)
      requires Valid() && p != buf
      modifies this`head, this`Contents, p
      ensures Valid()
      ensures n == TakeCount(old(State()), p.Length) && r == TakeOutcome(old(State()), EndOfFile)
      ensures p[..n] + Contents == old(Contents) && p[n..] == old(p[n..])
      ensures signals <==> r.Done?
    {
      if closeErr.Some? {
        return 0, Failed(ReadFromClosed(closeErr.value)), false;
      }
      if head == tail {
        return 0, if closeWrite then Failed(EndOfFile) else Blocks, false;
      }
      var avail := tail - head;
      var h := SlotOf(head, buf.Length);
      n := CopyOutWrapped(buf, h, avail, p);
      assert p[..n] == Contents[..n];
      AdvanceSlot(head, n, buf.Length);
      HoldsDrops(buf[..], h, Contents, n);
      head := head + n;
      Contents := Contents[n..];
      return n, Done(()), true;
    }

    /** One pass of Next. */
    method Next() returns (t: Outcome<T>, signals: bool)
      requires Valid()
      modifies this`head, this`Contents
      ensures Valid()
      ensures match TakeOutcome(old(State()), IteratorDone)
              case Done(_) => t.Done? && [t.value] + Contents == old(Contents)
              case Failed(f) => t == Failed(f) && Contents == old(Contents)
              case Blocks => t == Blocks && Contents == old(Contents)
      ensures signals <==> t.Done?
    {
      if closeErr.Some? {
        return Failed(ReadFromClosed(closeErr.value)), false;
      }
      if head == tail {
        return if closeWrite then Failed(IteratorDone) else Blocks, false;
      }
      var h := SlotOf(head, buf.Length);
      var chunk := buf[h];
      assert chunk == Contents[0];
      AdvanceSlot(head, 1, buf.Length);
      HoldsDrops(buf[..], h, Contents, 1);
      head := head + 1;
      Contents := Contents[1..];
      return Done(chunk), true;
    }

    /** CloseWrite broadcasts unless writing was closed before. */
    method CloseWrite() returns (broadcasts: bool)
      requires Valid()
      modifies this`closeWrite
      ensures Valid() && closeWrite && (broadcasts <==> !old(closeWrite))
    {
      broadcasts := !closeWrite;
      closeWrite := true;
    }

    /** CloseWithError keeps the first error and broadcasts when it sets one. */
    method CloseWithError(cause: Option<Cause>) returns (broadcasts: bool)
      requires Valid()
      modifies this`closeWrite, this`closeErr
      ensures Valid() && closeWrite && (broadcasts <==> old(closeErr).None?)
      ensures closeErr == if old(closeErr).Some? then old(closeErr)
                          else if cause.Some? then cause else Some(ClosedPipe)
    {
      broadcasts := closeErr.None?;
      if closeErr.None? {
        closeErr := if cause.Some? then cause else Some(ClosedPipe);
        closeWrite := true;
      }
    }
  }
}
