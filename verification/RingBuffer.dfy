/** The overwriting ring (pkgs/buffer/ring_buffer.go): a writer never blocks; when
    the ring is full the oldest elements give way. */
module RingBuffers {
  import opened BufferTypes
  import opened Options
  import opened RingWindow

  class RingBuffer<T(0)> {
    const buf: array<T>
    var head: nat
    var tail: nat
    var closeWrite: bool
    var closeErr: Option<Cause>
    var token: bool       // a value waits in the one-slot writeNotify channel
    var notifyClosed: bool  // the channel is closed
    ghost var Contents: seq<T>  // the buffered elements, oldest first

    ghost predicate Valid()
      reads this, buf
    {
      && 0 < buf.Length
      && tail == head + |Contents|
      && Holds(buf[..], Phase(head, buf.Length), Contents)
      && (closeErr.Some? ==> closeWrite) && notifyClosed == closeWrite
    }

    constructor (size: nat)
      requires size > 0
      ensures Valid() && fresh(buf) && buf.Length == size && Contents == []
      ensures !closeWrite && closeErr == None && !token
    {
      buf := new T[size];
      head, tail, closeWrite, closeErr, token, notifyClosed, Contents := 0, 0, false, None, false, false, [];
    }

    /** Appends `p` and keeps the last `buf.Length` elements, whatever the length of `p`.
        It leaves the notify channel alone. */
    method Write(p: seq<T>) returns (r: Outcome<nat>)
      requires Valid()
      modifies this`head, this`tail, this`Contents, buf
      ensures Valid()
      ensures match WriteRefusal(closeErr, closeWrite)
              case Some(f) => r == Failed(f) && Contents == old(Contents)
              case None => r == Done(|p|) && Contents == LastN(old(Contents) + p, buf.Length)
    {
      if closeErr.Some? {
        return Failed(WriteToClosed(closeErr.value));
      }
      if closeWrite {
        return Failed(WriteToClosed(ClosedPipe));
      }
      ghost var c0 := Contents;
      var wn := FillFree(p);
      var leftn := |p| - wn;
      LastOfParts(c0, p, wn, leftn, buf.Length);
      if leftn == 0 {
        return Done(wn);
      }
      var cbuf, bbuf := TailParts(p, leftn, buf.Length);
      OverwriteOldest(cbuf, bbuf, p[|p| - leftn..]);
      return Done(|p|);
    }

    /** The first half of Write: free slots take a prefix of `p`. */
    method FillFree(p: seq<T>) returns (wn: nat)
      requires Valid()
      modifies this`tail, this`Contents, buf
      ensures Valid()
      ensures wn <= |p| && (wn < |p| ==> |Contents| == buf.Length)
      ensures Contents == old(Contents) + p[..wn]
    {
      var avail := buf.Length - (tail - head);
      wn := 0;
      if avail > 0 {
        ghost var a := buf[..];
        AdvanceSlot(head, |Contents|, buf.Length);
        var at := SlotOf(tail, buf.Length);
        wn := CopyInWrapped(buf, at, avail, p);
        StoreAppends(a, Phase(head, buf.Length), Contents, p[..wn], buf[..]);
        tail := tail + wn;
      }
      Contents := Contents + p[..wn];
    }

    /** The second half of Write: the ring is full and `rest` is left. */
    method OverwriteOldest(cbuf: seq<T>, bbuf: seq<T>, ghost rest: seq<T>)
      requires Valid() && |Contents| == buf.Length
      requires TailSplit(rest, cbuf, bbuf, buf.Length)
      modifies this`head, this`tail, this`Contents, buf
      ensures Valid()
      ensures Contents == LastN(old(Contents) + rest, buf.Length)
    {
      ghost var a := buf[..];
      var h := SlotOf(head, buf.Length);
      WrapCopyTwo(h, cbuf, bbuf);
      OverwriteKeepsLast(a, h, Contents, rest, cbuf, bbuf, buf[..]);
      AdvanceSlot(head, |cbuf|, buf.Length);
      head := head + |cbuf|;
      tail := tail + |cbuf|;
      Contents := LastN(Contents + rest, buf.Length);
    }

    /** Stores `cbuf` from slot `h` and `bbuf` right behind it. */
    method WrapCopyTwo(h: nat, cbuf: seq<T>, bbuf: seq<T>)
      requires h < buf.Length && |cbuf| + |bbuf| <= buf.Length
      modifies buf
      ensures Stored(old(buf[..]), h, cbuf + bbuf, buf[..])
    {
      var cp1 := CopyAt(buf, h, buf.Length, cbuf);
      if cp1 < |cbuf| {
        var cp2 := CopyAt(buf, 0, buf.Length, cbuf[cp1..]);
        var bp := CopyAt(buf, cp2, buf.Length, bbuf);
      } else {
        var bp1 := CopyAt(buf, h + cp1, buf.Length, bbuf);
        var bp2 := CopyAt(buf, 0, buf.Length, bbuf[bp1..]);
      }
    }

    /** Adds one element, dropping the oldest when the ring was full, and leaves a token. */
    method Add(t: T) returns (r: Outcome<()>)
      requires Valid()
      modifies this`head, this`tail, this`token, this`Contents, buf
      ensures Valid()
      ensures match WriteRefusal(closeErr, closeWrite)
              case Some(f) => r == Failed(f) && Contents == old(Contents) && token == old(token)
              case None => r == Done(()) && Contents == LastN(old(Contents) + [t], buf.Length) && token
    {
      if closeErr.Some? {
        return Failed(WriteToClosed(closeErr.value));
      }
      if closeWrite {
        return Failed(WriteToClosed(ClosedPipe));
      }
      StoreOne(t);
      token := true;
      return Done(());
    }

    /** The element goes to the slot after the newest, and the head moves when that was taken. */
    method StoreOne(t: T)
      requires Valid()
      modifies this`head, this`tail, this`Contents, buf
      ensures Valid() && Contents == LastN(old(Contents) + [t], buf.Length)
    {
      ghost var a, h := buf[..], Phase(head, buf.Length);
      AdvanceSlot(head, |Contents|, buf.Length);
      AdvanceSlot(head, 1, buf.Length);
      var at := SlotOf(tail, buf.Length);
      buf[at] := t;
      ghost var h1 := if |Contents| == buf.Length then Slot(buf.Length, h, 1) else h;
      AddKeepsLast(a, h, Contents, at, t, buf[..], h1);
      tail := tail + 1;
      if tail - head > buf.Length {
        head := head + 1;
      }
      assert Phase(head, buf.Length) == h1;
      Contents := LastN(Contents + [t], buf.Length);
    }

    /** One pass of Read: what is copied out is the front of the contents. */
    method Read(p: array<T>) returns (r: Outcome<nat>)
      requires Valid() && p != buf
      modifies this`head, this`Contents, p
      ensures Valid()
      ensures r.Blocks? <==> closeErr.None? && !closeWrite && old(Contents) == []
      ensures r.Failed? <==> closeErr.Some? || (closeWrite && old(Contents) == [])
      ensures closeErr.Some? ==> r == Failed(ReadFromClosed(closeErr.value))
      ensures closeErr.None? && r.Failed? ==> r == Failed(EndOfFile)
      ensures r.Done? ==>
        && r.value == (if |old(Contents)| <= p.Length then |old(Contents)| else p.Length)
        && p[..r.value] + Contents == old(Contents) && p[r.value..] == old(p[r.value..])
      ensures !r.Done? ==> Contents == old(Contents) && p[..] == old(p[..])
    {
      if closeErr.Some? {
        return Failed(ReadFromClosed(closeErr.value));
      }
      if head == tail {
        if closeWrite {
          return Failed(EndOfFile);
        }
        return Blocks;
      }
      var avail := tail - head;
      var h := SlotOf(head, buf.Length);
      var n := CopyOutWrapped(buf, h, avail, p);
      assert p[..n] == Contents[..n];
      AdvanceSlot(head, n, buf.Length);
      HoldsDrops(buf[..], h, Contents, n);
      head := head + n;
      Contents := Contents[n..];
      return Done(n);
    }

    /** One pass of Next: takes the oldest element. */
    method Next() returns (r: Outcome<T>)
      requires Valid()
      modifies this`head, this`Contents
      ensures Valid()
      ensures r.Blocks? <==> closeErr.None? && !closeWrite && old(Contents) == []
      ensures closeErr.Some? ==> r == Failed(ReadFromClosed(closeErr.value))
      ensures closeErr.None? && r.Failed? ==> r == Failed(IteratorDone) && closeWrite && old(Contents) == []
      ensures if r.Done? then old(Contents) == [r.value] + Contents else Contents == old(Contents)
    {
      if closeErr.Some? {
        return Failed(ReadFromClosed(closeErr.value));
      }
      if head == tail {
        if closeWrite {
          return Failed(IteratorDone);
        }
        return Blocks;
      }
      var h := SlotOf(head, buf.Length);
      var chunk := buf[h];
      assert chunk == Contents[0];
      AdvanceSlot(head, 1, buf.Length);
      HoldsDrops(buf[..], h, Contents, 1);
      head := head + 1;
      Contents := Contents[1..];
      return Done(chunk);
    }

    /** Drops up to `n` elements from the front. */
    method Discard(n: nat) returns (r: Outcome<()>)
      requires Valid()
      modifies this`head, this`Contents
      ensures Valid()
      ensures closeErr.Some? ==> r == Failed(SkipFromClosed(closeErr.value)) && Contents == old(Contents)
      ensures closeErr.None? ==>
        r == Done(()) && Contents == old(Contents)[if n <= |old(Contents)| then n else |old(Contents)|..]
    {
      if closeErr.Some? {
        return Failed(SkipFromClosed(closeErr.value));
      }
      if n > tail - head {
        head := tail;
        Contents := [];
        return Done(());
      }
      AdvanceSlot(head, n, buf.Length);
      HoldsDrops(buf[..], Phase(head, buf.Length), Contents, n);
      head := head + n;
      Contents := Contents[n..];
      return Done(());
    }

    /** Bytes shows the contents exactly when the ring is not empty; an empty ring is
        shown as all of its slots. */
    method Bytes() returns (s: seq<T>)
      requires Valid()
      ensures s == Contents <==> Contents != []
      ensures |s| == if Contents == [] then buf.Length else |Contents|
    {
      var h := SlotOf(head, buf.Length);
      var t := SlotOf(tail, buf.Length);
      AdvanceSlot(head, |Contents|, buf.Length);
      if h < t {
        s := buf[h..t];
      } else {
        s := buf[h..] + buf[..t];
      }
    }

    method Reset()
      requires Valid()
      modifies this`head, this`tail, this`Contents
      ensures Valid() && Contents == []
    {
      head, tail, Contents := 0, 0, [];
    }

    method CloseWrite()
      requires Valid()
      modifies this`closeWrite, this`notifyClosed
      ensures Valid() && closeWrite && notifyClosed
    {
      if !closeWrite {
        closeWrite, notifyClosed := true, true;
      }
    }

    /** The first close error is kept, the channel is closed, and nothing buffered is lost. */
    method CloseWithError(cause: Option<Cause>)
      requires Valid()
      modifies this`closeWrite, this`closeErr, this`notifyClosed
      ensures Valid() && closeWrite && notifyClosed
      ensures closeErr == if old(closeErr).Some? then old(closeErr)
                          else if cause.Some? then cause else Some(ClosedPipe)
    {
      if closeErr.None? {
        closeErr := if cause.Some? then cause else Some(ClosedPipe);
        if !closeWrite {
          closeWrite, notifyClosed := true, true;
        }
      }
    }
  }

  /** How the rest of an input is cut for a full ring of `n` slots. */
  ghost predicate TailSplit<T>(rest: seq<T>, cbuf: seq<T>, bbuf: seq<T>, n: nat) {
    && |cbuf| + |bbuf| <= n
    && (|rest| <= n ==> cbuf == rest && bbuf == [])
    && (|rest| > n ==> |cbuf| + |bbuf| == n && bbuf + cbuf == rest[|rest| - n..])
  }

  /** What Write stores of the last `leftn` elements of `p` in a full ring of `n` slots:
      first `cbuf`, then `bbuf` behind it; in `p` the two stand the other way round. */
  method TailParts<T>(p: seq<T>, leftn: nat, n: nat) returns (cbuf: seq<T>, bbuf: seq<T>)
    requires 0 < n && leftn <= |p|
    ensures TailSplit(p[|p| - leftn..], cbuf, bbuf, n)
  {
    if leftn <= n {
      cbuf, bbuf := p[|p| - leftn..], [];
    } else {
      var cn := leftn % n;
      cbuf := p[|p| - cn..];
      bbuf := p[|p| - n..|p| - cn];
      assert bbuf + cbuf == p[|p| - n..];
    }
  }

  /** Replacing the front of a full ring and moving its first slot behind what was
      replaced leaves the last elements of the old contents and the input: `cbuf` is
      the input itself when that fits the ring, and otherwise `bbuf + cbuf` is its end. */
  lemma OverwriteKeepsLast<T>(a: seq<T>, h: nat, c: seq<T>, rest: seq<T>, cbuf: seq<T>, bbuf: seq<T>, b: seq<T>)
    requires Holds(a, h, c) && |c| == |a|
    requires TailSplit(rest, cbuf, bbuf, |a|)
    requires Stored(a, h, cbuf + bbuf, b)
    ensures Holds(b, Slot(|a|, h, |cbuf|), LastN(c + rest, |a|))
  {
    var n, h' := |a|, Slot(|a|, h, |cbuf|);
    var w, src := LastN(c + rest, n), cbuf + bbuf;
    forall i | 0 <= i < n ensures w[i] == b[Slot(n, h', i)] {
      var k := Slot(n, h', i);
      var j := Offset(n, h, k);
      assert b[k] == if j < |src| then src[j] else a[k];
      if |rest| <= n {
        assert w[i] == (c + rest)[i + |rest|];
        if i + |rest| < n {
          assert w[i] == c[i + |rest|];
        }
      } else {
        assert w[i] == (bbuf + cbuf)[i];
      }
    }
  }

  lemma AddKeepsLast<T>(a: seq<T>, h: nat, c: seq<T>, at: nat, t: T, b: seq<T>, h1: nat)
    requires Holds(a, h, c) && at == Slot(|a|, h, |c|) && b == a[at := t]
    requires h1 == if |c| == |a| then Slot(|a|, h, 1) else h
    ensures Holds(b, h1, LastN(c + [t], |a|))
  {
    if |c| == |a| {
      assert [t] + [] == [t];
      OverwriteKeepsLast(a, h, c, [t], [t], [], b);
    } else {
      StoreAppends(a, h, c, [t], b);
    }
  }

  lemma LastOfParts<T>(c: seq<T>, p: seq<T>, wn: nat, leftn: nat, n: nat)
    requires wn + leftn == |p| && |c| + wn <= n
    ensures leftn == 0 ==> c + p[..wn] == LastN(c + p, n)
    ensures LastN(c + p[..wn] + p[|p| - leftn..], n) == LastN(c + p, n)
  {
    assert c + p[..wn] + p[|p| - leftn..] == c + p;
  }

  /** Keeping the last `n` after each of two appends is keeping the last `n` of both, so
      how a stream of elements is cut into Write and Add calls does not matter. */
  lemma KeepLastTwice<T>(c: seq<T>, p: seq<T>, q: seq<T>, n: nat)
    ensures LastN(LastN(c + p, n) + q, n) == LastN(c + (p + q), n)
  {
    var x, y := LastN(LastN(c + p, n) + q, n), LastN(c + (p + q), n);
    forall i | 0 <= i < |y| ensures x[i] == y[i] {
      KeepLastTwiceAt(c, p, q, n, i);
    }
  }

  lemma KeepLastTwiceAt<T>(c: seq<T>, p: seq<T>, q: seq<T>, n: nat, i: nat)
    requires i < |c| + |p| + |q| && i < n
    ensures LastN(LastN(c + p, n) + q, n)[i] == LastN(c + (p + q), n)[i]
  {
    var x, y := LastN(LastN(c + p, n) + q, n), LastN(c + (p + q), n);
    var k := |c| + |p| + |q| - |y| + i;
    assert y[i] == (c + (p + q))[k];
    if k >= |c| + |p| {
      assert y[i] == q[k - |c| - |p|];
    } else {
      assert y[i] == (c + p)[k];
    }
  }

  /** What a ring of `n` slots holds after a series of writes and no reads. */
  function AfterWrites<T>(c: seq<T>, ps: seq<seq<T>>, n: nat): (r: seq<T>)
  {
    if ps == [] then c else LastN(AfterWrites(c, ps[..|ps| - 1], n) + ps[|ps| - 1], n)
  }

  function Flatten<T>(ps: seq<seq<T>>): (r: seq<T>)
  {
    if ps == [] then [] else Flatten(ps[..|ps| - 1]) + ps[|ps| - 1]
  }

  /** Any series of writes leaves the last `n` elements of everything written. */
  lemma {:induction false} WritesKeepLast<T>(c: seq<T>, ps: seq<seq<T>>, n: nat)
    requires |c| <= n
    ensures AfterWrites(c, ps, n) == LastN(c + Flatten(ps), n)
  {
    if ps == [] {
      assert c + [] == c;
    } else {
      WritesKeepLast(c, ps[..|ps| - 1], n);
      KeepLastTwice(c, Flatten(ps[..|ps| - 1]), ps[|ps| - 1], n);
    }
  }
}
