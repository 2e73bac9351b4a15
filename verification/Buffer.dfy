/** The growable queue (pkgs/buffer/buffer.go): every element carries an ID, and RemoveIf
    works in two critical sections with the predicate evaluated between them. */
module Buffers {
  import opened BufferTypes
  import opened Collections
  import opened Options

  /** The values kept when the elements whose ID is in `doomed` are removed. */
  function KeptValues<T>(values: seq<T>, ids: seq<nat>, doomed: set<nat>): (r: seq<T>)
    requires |values| == |ids|
    ensures |r| == |KeptIds(ids, doomed)|
  {
    if values == [] then []
    else
      var n := |values| - 1;
      KeptValues(values[..n], ids[..n], doomed) + if ids[n] in doomed then [] else [values[n]]
  }

  function KeptIds(ids: seq<nat>, doomed: set<nat>): (r: seq<nat>)
    ensures |r| <= |ids|
  {
    if ids == [] then []
    else
      var n := |ids| - 1;
      KeptIds(ids[..n], doomed) + if ids[n] in doomed then [] else [ids[n]]
  }

  /** The IDs that `n` elements added after `last` receive. */
  function FreshIds(last: nat, n: nat): (r: seq<nat>)
    ensures |r| == n && forall i :: 0 <= i < n ==> r[i] == last + 1 + i
  {
    seq(n, i => last + 1 + i)
  }

  /** Everything kept was there before, and is not doomed. */
  lemma {:induction false} KeptOrigin<T>(values: seq<T>, ids: seq<nat>, doomed: set<nat>, k: nat) returns (i: nat)
    requires |values| == |ids| && k < |KeptIds(ids, doomed)|
    ensures i < |ids| && ids[i] == KeptIds(ids, doomed)[k] && ids[i] !in doomed
    ensures values[i] == KeptValues(values, ids, doomed)[k]
  {
    var n := |ids| - 1;
    if k < |KeptIds(ids[..n], doomed)| {
      i := KeptOrigin(values[..n], ids[..n], doomed, k);
    } else {
      i := n;
    }
  }

  /** What is kept is in order. */
  lemma {:induction false} KeptAscending(ids: seq<nat>, doomed: set<nat>)
    requires Ascending(ids)
    ensures Ascending(KeptIds(ids, doomed))
  {
    if ids != [] {
      var n := |ids| - 1;
      var pre := KeptIds(ids[..n], doomed);
      KeptAscending(ids[..n], doomed);
      forall k | 0 <= k < |pre| ensures pre[k] < ids[n] {
        var i := KeptOrigin(ids[..n], ids[..n], doomed, k);
      }
    }
  }

  /** Nothing else is removed. */
  lemma {:induction false} KeptComplete<T>(values: seq<T>, ids: seq<nat>, doomed: set<nat>, i: nat) returns (k: nat)
    requires |values| == |ids| && i < |ids| && ids[i] !in doomed
    ensures k < |KeptIds(ids, doomed)| && KeptIds(ids, doomed)[k] == ids[i]
    ensures KeptValues(values, ids, doomed)[k] == values[i]
  {
    var n := |ids| - 1;
    if i == n {
      k := |KeptIds(ids[..n], doomed)|;
    } else {
      k := KeptComplete(values[..n], ids[..n], doomed, i);
    }
  }

  class Buffer<T> {
    var buf: seq<T>
    var ids: seq<nat>
    var nextID: nat
    var closeWrite: bool
    var closeErr: Option<Cause>
    var token: bool          // a value waits in the one-slot writeNotify channel
    var notifyClosed: bool   // the channel is closed

    ghost predicate Valid()
      reads this
    {
      && |buf| == |ids| && Ascending(ids)
      && (forall i :: 0 <= i < |ids| ==> 0 < ids[i] <= nextID)
      && notifyClosed == closeWrite && (closeErr.Some? ==> closeWrite && buf == [])
    }

    constructor ()
      ensures Valid() && buf == [] && nextID == 0 && !closeWrite && closeErr == None && !token
    {
      buf, ids, nextID, closeWrite, closeErr, token, notifyClosed := [], [], 0, false, None, false, false;
    }

    /** Appends `p` under fresh IDs. The token is left before anything is appended, and
        also when `p` is empty. */
    method Write(p: seq<T>) returns (r: Outcome<nat>)
      requires Valid()
      modifies this`buf, this`ids, this`nextID, this`token
      ensures Valid()
      ensures match WriteRefusal(closeErr, closeWrite)
              case Some(f) => r == Failed(f) && buf == old(buf) && ids == old(ids) && nextID == old(nextID) && token == old(token)
              case None =>
                && r == Done(|p|) && buf == old(buf) + p && token
                && nextID == old(nextID) + |p| && ids == old(ids) + FreshIds(old(nextID), |p|)
    {
      if closeErr.Some? {
        return Failed(WriteToClosed(closeErr.value));
      }
      if closeWrite {
        return Failed(WriteToClosed(ClosedPipe));
      }
      token := true;
      buf := buf + p;
      var k := 0;
      while k < |p|
        invariant 0 <= k <= |p| && nextID == old(nextID) + k
        invariant ids == old(ids) + FreshIds(old(nextID), k)
        invariant buf == old(buf) + p && token
      {
        nextID := nextID + 1;
        ids := ids + [nextID];
        k := k + 1;
      }
      return Done(|p|);
    }

    method Add(t: T) returns (r: Outcome<()>)
      requires Valid()
      modifies this`buf, this`ids, this`nextID, this`token
      ensures Valid()
      ensures match WriteRefusal(closeErr, closeWrite)
              case Some(f) => r == Failed(f) && buf == old(buf) && ids == old(ids) && nextID == old(nextID) && token == old(token)
              case None => r == Done(()) && token && nextID == old(nextID) + 1
                           && buf == old(buf) + [t] && ids == old(ids) + [nextID]
    {
      if closeErr.Some? {
        return Failed(WriteToClosed(closeErr.value));
      }
      if closeWrite {
        return Failed(WriteToClosed(ClosedPipe));
      }
      buf := buf + [t];
      nextID := nextID + 1;
      ids := ids + [nextID];
      token := true;
      return Done(());
    }

    /** One pass of Read for at most `max` elements. */
    method Read(max: nat) returns (data: seq<T>, r: Outcome<()>)
      requires Valid()
      modifies this`buf, this`ids
      ensures Valid()
      ensures r.Blocks? <==> closeErr.None? && !closeWrite && old(buf) == []
      ensures closeErr.Some? ==> r == Failed(ReadFromClosed(closeErr.value))
      ensures closeErr.None? && r.Failed? ==> r == Failed(EndOfFile) && closeWrite && old(buf) == []
      ensures data + buf == old(buf) && ids == old(ids)[|data|..]
      ensures r.Done? ==> |data| == if max <= |old(buf)| then max else |old(buf)|
      ensures !r.Done? ==> data == []
    {
      data := [];
      if closeErr.Some? {
        return data, Failed(ReadFromClosed(closeErr.value));
      }
      if |buf| == 0 {
        return data, if closeWrite then Failed(EndOfFile) else Blocks;
      }
      var n := if max <= |buf| then max else |buf|;
      data := buf[..n];
      buf := buf[n..];
      ids := ids[n..];
      return data, Done(());
    }

    /** One pass of Next. */
    method Next() returns (t: Outcome<T>)
      requires Valid()
      modifies this`buf, this`ids
      ensures Valid()
      ensures t.Blocks? <==> closeErr.None? && !closeWrite && old(buf) == []
      ensures closeErr.Some? ==> t == Failed(ReadFromClosed(closeErr.value))
      ensures closeErr.None? && t.Failed? ==> t == Failed(IteratorDone) && closeWrite && old(buf) == []
      ensures if t.Done? then [t.value] + buf == old(buf) && ids == old(ids)[1..] else buf == old(buf) && ids == old(ids)
    {
      if closeErr.Some? {
        return Failed(ReadFromClosed(closeErr.value));
      }
      if |buf| == 0 {
        return if closeWrite then Failed(IteratorDone) else Blocks;
      }
      t := Done(buf[0]);
      buf := buf[1..];
      ids := ids[1..];
    }

    method Discard(n: nat) returns (r: Outcome<()>)
      requires Valid()
      modifies this`buf, this`ids
      ensures Valid()
      ensures closeErr.Some? ==> r == Failed(SkipFromClosed(closeErr.value)) && buf == old(buf) && ids == old(ids)
      ensures closeErr.None? ==> r == Done(()) && |buf| == if n <= |old(buf)| then |old(buf)| - n else 0
      ensures |buf| <= |old(buf)| && buf == old(buf)[|old(buf)| - |buf|..] && ids == old(ids)[|old(buf)| - |buf|..]
    {
      if closeErr.Some? {
        return Failed(SkipFromClosed(closeErr.value));
      }
      if n > |buf| {
        buf, ids := [], [];
      } else {
        buf, ids := buf[n..], ids[n..];
      }
      return Done(());
    }

    method CloseWrite()
      requires Valid()
      modifies this`closeWrite, this`notifyClosed
      ensures Valid() && closeWrite && notifyClosed
    {
      closeWrite, notifyClosed := true, true;
    }

    /** The first error is kept; closing with an error discards what is buffered. */
    method CloseWithError(cause: Option<Cause>)
      requires Valid()
      modifies this`closeWrite, this`closeErr, this`notifyClosed, this`buf, this`ids
      ensures Valid() && closeWrite && notifyClosed && buf == []
      ensures closeErr == if old(closeErr).Some? then old(closeErr)
                          else if cause.Some? then cause else Some(ClosedPipe)
    {
      if closeErr.None? {
        closeErr := if cause.Some? then cause else Some(ClosedPipe);
        buf, ids := [], [];
        closeWrite, notifyClosed := true, true;
      }
    }

    /** The first critical section of RemoveIf and the predicate calls after it: the IDs of
        the buffered values that satisfy the predicate. */
    method RemoveIfSnapshot(matches: T -> bool) returns (doomed: set<nat>)
      requires Valid()
      ensures forall id :: id in doomed <==> exists i :: 0 <= i < |ids| && ids[i] == id && matches(buf[i])
    {
      var values, keys := buf, ids;
      doomed := {};
      for i := 0 to |values|
        invariant forall id :: id in doomed <==> exists j :: 0 <= j < i && keys[j] == id && matches(values[j])
      {
        if matches(values[i]) {
          doomed := doomed + {keys[i]};
        }
      }
    }

    /** The second critical section of RemoveIf. */
    method RemoveIfSweep(doomed: set<nat>) returns (removed: nat)
      requires Valid()
      modifies this`buf, this`ids
      ensures Valid()
      ensures buf == KeptValues(old(buf), old(ids), doomed) && ids == KeptIds(old(ids), doomed)
      ensures removed == |old(buf)| - |buf|
    {
      var kept, keptIds := Compact(buf, ids, doomed);
      KeptAscending(ids, doomed);
      forall k | 0 <= k < |keptIds| ensures 0 < keptIds[k] <= nextID {
        var i := KeptOrigin(buf, ids, doomed, k);
      }
      removed := |buf| - |kept|;
      buf, ids := kept, keptIds;
    }
  }

  lemma KeptStep<T>(values: seq<T>, ids: seq<nat>, doomed: set<nat>, i: nat)
    requires |values| == |ids| && i < |ids|
    ensures KeptValues(values[..i + 1], ids[..i + 1], doomed) ==
            KeptValues(values[..i], ids[..i], doomed) + if ids[i] in doomed then [] else [values[i]]
    ensures KeptIds(ids[..i + 1], doomed) == KeptIds(ids[..i], doomed) + if ids[i] in doomed then [] else [ids[i]]
  {
    assert values[..i + 1][..i] == values[..i] && ids[..i + 1][..i] == ids[..i];
  }

  lemma PrefixGrows<T>(xs: seq<T>, n: nat, i: nat)
    requires n <= i < |xs|
    ensures xs[n := xs[i]][..n + 1] == xs[..n] + [xs[i]]
  {
  }

  /** After `i` elements: the first `n` places hold what is kept of them, the places from `i` on
      are untouched. */
  ghost predicate Compacted<T>(store: seq<T>, keys: seq<nat>, n: nat, values: seq<T>, ids: seq<nat>, doomed: set<nat>, i: nat) {
    && |store| == |keys| == |values| == |ids| && n <= i <= |values|
    && store[i..] == values[i..] && keys[i..] == ids[i..]
    && store[..n] == KeptValues(values[..i], ids[..i], doomed) && keys[..n] == KeptIds(ids[..i], doomed)
  }

  lemma CompactKeeps<T>(store: seq<T>, keys: seq<nat>, n: nat, values: seq<T>, ids: seq<nat>, doomed: set<nat>, i: nat)
    requires i < |values| && Compacted(store, keys, n, values, ids, doomed, i) && keys[i] !in doomed
    ensures Compacted(store[n := store[i]], keys[n := keys[i]], n + 1, values, ids, doomed, i + 1)
  {
    assert store[i] == store[i..][0] == values[i] && keys[i] == keys[i..][0] == ids[i];
    KeptStep(values, ids, doomed, i);
    PrefixGrows(store, n, i);
    PrefixGrows(keys, n, i);
    assert store[n := store[i]][i + 1..] == store[i..][1..] && keys[n := keys[i]][i + 1..] == keys[i..][1..];
  }

  lemma CompactSkips<T>(store: seq<T>, keys: seq<nat>, n: nat, values: seq<T>, ids: seq<nat>, doomed: set<nat>, i: nat)
    requires i < |values| && Compacted(store, keys, n, values, ids, doomed, i) && keys[i] in doomed
    ensures Compacted(store, keys, n, values, ids, doomed, i + 1)
  {
    assert keys[i] == keys[i..][0] == ids[i];
    KeptStep(values, ids, doomed, i);
    assert store[i + 1..] == store[i..][1..] && keys[i + 1..] == keys[i..][1..];
  }

  /** The compaction loop of RemoveIf: kept elements move down in the very storage that is
      being scanned. */
  method Compact<T>(values: seq<T>, ids: seq<nat>, doomed: set<nat>) returns (kept: seq<T>, keptIds: seq<nat>)
    requires |values| == |ids|
    ensures kept == KeptValues(values, ids, doomed) && keptIds == KeptIds(ids, doomed)
  {
    var store, keys, n := values, ids, 0;
    for i := 0 to |values|
      invariant Compacted(store, keys, n, values, ids, doomed, i)
    {
      if keys[i] !in doomed {
        CompactKeeps(store, keys, n, values, ids, doomed, i);
        store := store[n := store[i]];
        keys := keys[n := keys[i]];
        n := n + 1;
      } else {
        CompactSkips(store, keys, n, values, ids, doomed, i);
      }
    }
    assert values[..|values|] == values && ids[..|values|] == ids;
    kept, keptIds := store[..n], keys[..n];
  }
}
