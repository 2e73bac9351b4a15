/** Wrap-around arithmetic shared by the two fixed-size buffers: a ring of slots
    read as a sequence, and the two-part copies that the buffers perform on it. */
module RingWindow {

  /** The slot reached by moving `i` places forward from slot `h` of `n` slots. */
  function Slot(n: nat, h: nat, i: nat): (k: nat)
    requires h < n && i <= n
    ensures k < n
  {
    if h + i < n then h + i else h + i - n
  }

  /** The places moved forward from slot `h` to reach slot `k`. */
  function Offset(n: nat, h: nat, k: nat): (i: nat)
    requires h < n && k < n
    ensures i < n && Slot(n, h, i) == k
  {
    if h <= k then k - h else k + n - h
  }

  /** Ring `a` holds the elements `c` from slot `h` onwards. */
  ghost predicate Holds<T>(a: seq<T>, h: nat, c: seq<T>) {
    && h < |a| && |c| <= |a|
    && forall i {:trigger c[i]} :: 0 <= i < |c| ==> c[i] == a[Slot(|a|, h, i)]
  }

  /** Ring `b` is ring `a` after `src` was stored from slot `at` onwards. */
  ghost predicate Stored<T>(a: seq<T>, at: nat, src: seq<T>, b: seq<T>) {
    && at < |a| == |b| && |src| <= |a|
    && forall k {:trigger b[k]} :: 0 <= k < |a| ==>
         b[k] == if Offset(|a|, at, k) < |src| then src[Offset(|a|, at, k)] else a[k]
  }

  /** The last `n` elements of `s`, or all of them when there are fewer. */
  function LastN<T>(s: seq<T>, n: nat): (r: seq<T>)
    ensures |r| == if |s| <= n then |s| else n
  {
    if |s| <= n then s else s[|s| - n..]
  }

  lemma MultipleAtLeast(k: int, n: nat)
    requires k >= 1
    ensures k * n >= n
  {
    assert (k - 1) * n >= 0;
    assert k * n == (k - 1) * n + n;
  }

  lemma ModUnique(q: int, r: nat, n: nat)
    requires r < n
    ensures (q * n + r) % n == r
  {
    var x := q * n + r;
    var d, m := x / n, x % n;
    assert x == d * n + m;
    assert (q - d) * n == q * n - d * n;
    if q > d {
      MultipleAtLeast(q - d, n);
    } else if q < d {
      assert (d - q) * n == d * n - q * n;
      MultipleAtLeast(d - q, n);
    }
  }

  /** The slot of a position counter: its remainder, by repeated subtraction. */
  function Phase(pos: nat, n: nat): (h: nat)
    requires 0 < n
    ensures h < n
  {
    if pos < n then pos else Phase(pos - n, n)
  }

  lemma {:induction false} PhaseIsRemainder(pos: nat, n: nat)
    requires 0 < n
    ensures Phase(pos, n) == pos % n
  {
    if pos >= n {
      PhaseIsRemainder(pos - n, n);
      var q, r := (pos - n) / n, (pos - n) % n;
      assert (q + 1) * n == q * n + n;
      assert pos == (q + 1) * n + r;
      ModUnique(q + 1, r, n);
    }
  }

  /** Moving a position counter forward by at most one lap moves its slot forward. */
  lemma {:induction false} AdvanceSlot(pos: nat, k: nat, n: nat)
    requires 0 < n && k <= n
    ensures Phase(pos + k, n) == Slot(n, Phase(pos, n), k)
  {
    if pos >= n {
      AdvanceSlot(pos - n, k, n);
    } else if pos + k >= n {
      assert Phase(pos + k - n, n) == pos + k - n || pos + k - n == n;
    }
  }

  /** The remainder operation of the source on its position counters. */
  method SlotOf(pos: nat, n: nat) returns (h: nat)
    requires 0 < n
    ensures h == Phase(pos, n)
  {
    h := pos % n;
    PhaseIsRemainder(pos, n);
  }

  /** Storing right behind what a ring holds appends to it. */
  lemma StoreAppends<T>(a: seq<T>, h: nat, c: seq<T>, src: seq<T>, b: seq<T>)
    requires Holds(a, h, c) && |c| + |src| <= |a|
    requires Stored(a, Slot(|a|, h, |c|), src, b)
    ensures Holds(b, h, c + src)
  {
    var w := c + src;
    forall i | 0 <= i < |w| ensures w[i] == b[Slot(|a|, h, i)] {
      var k := Slot(|a|, h, i);
      assert b[k] == b[k];
      if i < |c| {
        assert w[i] == c[i];
      } else {
        assert w[i] == src[i - |c|] && Offset(|a|, Slot(|a|, h, |c|), k) == i - |c|;
      }
    }
  }

  /** Dropping from the front moves the first slot. */
  lemma HoldsDrops<T>(a: seq<T>, h: nat, c: seq<T>, k: nat)
    requires Holds(a, h, c) && k <= |c|
    ensures Holds(a, Slot(|a|, h, k), c[k..])
  {
    forall i | 0 <= i < |c| - k ensures c[k..][i] == a[Slot(|a|, Slot(|a|, h, k), i)] {
      assert c[k..][i] == c[k + i];
    }
  }

  /** Go's built-in `copy(dst[lo:hi], src)`. */
  method CopyAt<T>(dst: array<T>, lo: nat, hi: nat, src: seq<T>) returns (n: nat)
    requires lo <= hi <= dst.Length
    modifies dst
    ensures n == if |src| <= hi - lo then |src| else hi - lo
    ensures forall k :: 0 <= k < dst.Length ==> dst[k] == if lo <= k < lo + n then src[k - lo] else old(dst[k])
  {
    n := if |src| <= hi - lo then |src| else hi - lo;
    forall i | 0 <= i < n {
      dst[lo + i] := src[i];
    }
  }

  /** The shared write path: store as much of `p` as `avail` slots from slot `tail` can hold. */
  method CopyInWrapped<T>(buf: array<T>, tail: nat, avail: nat, p: seq<T>) returns (n: nat)
    requires tail < buf.Length && avail <= buf.Length
    modifies buf
    ensures n == if |p| <= avail then |p| else avail
    ensures Stored(old(buf[..]), tail, p[..n], buf[..])
  {
    if tail + avail <= buf.Length {
      n := CopyAt(buf, tail, tail + avail, p);
    } else {
      n := CopyAt(buf, tail, buf.Length, p);
      var m := CopyAt(buf, 0, avail - n, p[n..]);
      n := n + m;
    }
  }

  /** The shared read path: fill `p` from the `avail` elements at slot `head`. */
  method CopyOutWrapped<T>(buf: array<T>, head: nat, avail: nat, p: array<T>) returns (n: nat)
    requires head < buf.Length && avail <= buf.Length && p != buf
    modifies p
    ensures n == if avail <= p.Length then avail else p.Length
    ensures forall i :: 0 <= i < p.Length ==>
      p[i] == if i < n then buf[Slot(buf.Length, head, i)] else old(p[i])
  {
    if head + avail <= buf.Length {
      n := CopyAt(p, 0, p.Length, buf[head..head + avail]);
    } else {
      n := CopyAt(p, 0, p.Length, buf[head..]);
      var m := CopyAt(p, n, p.Length, buf[..avail - n]);
      n := n + m;
    }
  }
}
