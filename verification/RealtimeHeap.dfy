/** The binary heap that orders a realtime stream: container/heap's algorithms over the
    Less of pkgs/genx/realtime_stream.go. */
module RealtimeHeap {
  import opened RealtimeTypes

  function Parent(k: int): int { (k - 1) / 2 }

  /** Among the first `n` elements, no child of a parent at `lo` or later precedes it. */
  ghost predicate OrderedFrom(h: seq<Item>, n: nat, lo: nat) {
    n <= |h| && forall k :: 0 < k < n && lo <= Parent(k) ==> !Less(h[k], h[Parent(k)])
  }

  ghost predicate Heap(h: seq<Item>) { OrderedFrom(h, |h|, 0) }

  /** The root of a heap precedes every other element. */
  lemma {:induction false} RootIsLeast(h: seq<Item>, k: nat)
    requires Heap(h) && k < |h|
    ensures !Less(h[k], h[0])
  {
    if k > 0 {
      RootIsLeast(h, Parent(k));
    }
  }

  function Swap(h: seq<Item>, i: nat, j: nat): (r: seq<Item>)
    requires i < |h| && j < |h|
    ensures |r| == |h| && multiset(r) == multiset(h)
  {
    h[i := h[j]][j := h[i]]
  }

  /** The element at `j` may be out of place towards the root. */
  ghost predicate UpGap(h: seq<Item>, j: nat) {
    && j < |h|
    && (forall k :: 0 < k < |h| && k != j ==> !Less(h[k], h[Parent(k)]))
    && (forall k :: 0 < k < |h| && Parent(k) == j && j > 0 ==> !Less(h[k], h[Parent(j)]))
  }

  /** Swapping with the parent moves the gap up. */
  lemma UpStep(h: seq<Item>, j: nat)
    requires UpGap(h, j) && j > 0 && Less(h[j], h[Parent(j)])
    ensures UpGap(Swap(h, Parent(j), j), Parent(j))
  {
    var p := Parent(j);
    var r := Swap(h, p, j);
    forall k | 0 < k < |h| && k != p ensures !Less(r[k], r[Parent(k)]) {
      if k != j {
        assert !Less(h[k], h[Parent(k)]);
      }
    }
    forall k | 0 < k < |h| && Parent(k) == p && p > 0 ensures !Less(r[k], r[Parent(p)]) {
      assert !Less(h[p], h[Parent(p)]);
      if k != j {
        assert !Less(h[k], h[p]);
      }
    }
  }

  method Up(h0: seq<Item>, j0: nat) returns (h: seq<Item>)
    requires UpGap(h0, j0)
    ensures Heap(h) && multiset(h) == multiset(h0) && |h| == |h0|
  {
    h := h0;
    var j: nat := j0;
    while j > 0 && Less(h[j], h[Parent(j)])
      invariant |h| == |h0| && multiset(h) == multiset(h0) && UpGap(h, j)
      decreases j
    {
      UpStep(h, j);
      h := Swap(h, Parent(j), j);
      j := Parent(j);
    }
  }

  /** The element at `i` may be out of place away from the root, inside the part of the
      first `n` elements that starts at `lo`. */
  ghost predicate DownGap(h: seq<Item>, n: nat, lo: nat, i: nat) {
    && lo <= i && n <= |h|
    && (forall k :: 0 < k < n && lo <= Parent(k) && Parent(k) != i ==> !Less(h[k], h[Parent(k)]))
    && (forall k :: 0 < k < n && Parent(k) == i && i > 0 && lo <= Parent(i) ==> !Less(h[k], h[Parent(i)]))
  }

  /** Swapping with the smaller child moves the gap down. */
  lemma DownStep(h: seq<Item>, n: nat, lo: nat, i: nat, j: nat)
    requires DownGap(h, n, lo, i) && i < j < n && Parent(j) == i && Less(h[j], h[i])
    requires forall k :: 0 < k < n && Parent(k) == i ==> !Less(h[k], h[j])
    ensures DownGap(Swap(h, i, j), n, lo, j)
  {
    var r := Swap(h, i, j);
    forall k | 0 < k < n && lo <= Parent(k) && Parent(k) != j ensures !Less(r[k], r[Parent(k)]) {
      assert !Less(h[k], h[Parent(k)]) || Parent(k) == i;
      if k == i {
        assert Parent(j) == i && !Less(h[j], h[Parent(i)]);
      }
    }
    forall k | 0 < k < n && Parent(k) == j ensures !Less(r[k], r[Parent(j)]) {
      assert !Less(h[k], h[j]);
    }
  }

  /** The gap closes where no child precedes the element. */
  lemma DownDone(h: seq<Item>, n: nat, lo: nat, i: nat)
    requires DownGap(h, n, lo, i) && forall k :: 0 < k < n && Parent(k) == i ==> !Less(h[k], h[i])
    ensures OrderedFrom(h, n, lo)
  {
  }

  method SmallerChild(h: seq<Item>, n: nat, i: nat) returns (j: nat)
    requires 2 * i + 1 < n <= |h|
    ensures i < j < n && Parent(j) == i
    ensures forall k :: 0 < k < n && Parent(k) == i ==> !Less(h[k], h[j])
  {
    j := 2 * i + 1;
    if j + 1 < n && Less(h[j + 1], h[j]) {
      j := j + 1;
    }
    assert forall k :: 0 < k < n && Parent(k) == i ==> k == 2 * i + 1 || k == 2 * i + 2;
  }

  method Down(h0: seq<Item>, n: nat, lo: nat) returns (h: seq<Item>)
    requires DownGap(h0, n, lo, lo)
    ensures OrderedFrom(h, n, lo) && multiset(h) == multiset(h0) && |h| == |h0|
    ensures forall k :: n <= k < |h| ==> h[k] == h0[k]
  {
    h := h0;
    var i: nat := lo;
    while 2 * i + 1 < n
      invariant |h| == |h0| && multiset(h) == multiset(h0) && DownGap(h, n, lo, i)
      invariant forall k :: n <= k < |h| ==> h[k] == h0[k]
      decreases n - i
    {
      var j := SmallerChild(h, n, i);
      if !Less(h[j], h[i]) {
        DownDone(h, n, lo, i);
        return;
      }
      DownStep(h, n, lo, i, j);
      h := Swap(h, i, j);
      i := j;
    }
    DownDone(h, n, lo, i);
  }

  /** heap.Push */
  method Push(h0: seq<Item>, x: Item) returns (h: seq<Item>)
    requires Heap(h0)
    ensures Heap(h) && multiset(h) == multiset(h0) + multiset{x}
  {
    h := h0 + [x];
    h := Up(h, |h| - 1);
  }

  /** heap.Pop removes the root. */
  method Pop(h0: seq<Item>) returns (h: seq<Item>)
    requires Heap(h0) && h0 != []
    ensures Heap(h) && multiset(h) == multiset(h0) - multiset{h0[0]} && |h| == |h0| - 1
  {
    var n := |h0| - 1;
    h := Swap(h0, 0, n);
    h := Down(h, n, 0);
    assert h == h[..n] + [h[n]] && h[n] == h0[0];
    h := h[..n];
  }

  /** heap.Init */
  method Init(h0: seq<Item>) returns (h: seq<Item>)
    ensures Heap(h) && multiset(h) == multiset(h0)
  {
    h := h0;
    var i: nat := |h| / 2;
    while i > 0
      invariant |h| == |h0| && multiset(h) == multiset(h0) && OrderedFrom(h, |h|, i) && i <= |h|
      decreases i
    {
      i := i - 1;
      h := Down(h, |h|, i);
    }
  }
}
