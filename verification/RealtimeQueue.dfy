/** RealtimeStream (pkgs/genx/realtime_stream.go) over its binary heap: each operation does
    to the heap and the fields what the state machine says. */
module RealtimeQueues {
  import opened Options
  import opened RealtimeTypes
  import opened RealtimeStreams
  import RealtimeHeap

  /** `h` lists the elements of `items`, each once. */
  ghost predicate Lists(h: seq<Item>, items: set<Item>) {
    multiset(h) == multiset(items)
  }

  lemma ListsNone(h: seq<Item>, items: set<Item>)
    requires Lists(h, items)
    ensures h == [] <==> items == {}
  {
    ListsMembers(h, items);
  }

  lemma ListsMembers(h: seq<Item>, items: set<Item>)
    requires Lists(h, items)
    ensures forall x :: x in items <==> x in h
    ensures |h| == |items|
  {
    forall x ensures x in items <==> x in h {
      assert x in h <==> x in multiset(h);
    }
    assert |multiset(h)| == |h| && |multiset(items)| == |items|;
  }

  /** No element comes twice. */
  lemma ListsOnce(h: seq<Item>, items: set<Item>, k: nat)
    requires Lists(h, items) && k < |h|
    ensures h[k] in items && h[k] !in h[..k]
  {
    assert h == h[..k] + [h[k]] + h[k + 1..];
    assert multiset(h)[h[k]] == 1;
    assert multiset(h)[h[k]] == multiset(h[..k])[h[k]] + 1 + multiset(h[k + 1..])[h[k]];
  }

  lemma ListsGrows(h: seq<Item>, items: set<Item>, x: Item)
    requires Lists(h, items) && x !in items
    ensures Lists(h + [x], items + {x})
  {
  }

  /** One more item through the filter. */
  lemma KeptStep(items: set<Item>, seen: set<Item>, closedRoutes: set<string>, next: Ctrl, x: Item)
    requires seen <= items && x in items && x !in seen
    requires forall i, j :: i in items && j in items && i.sq == j.sq ==> i == j
    ensures var k, k' := Kept(seen, closedRoutes, next), Kept(seen + {x}, closedRoutes, next);
      if Survives(x, closedRoutes, next) then k' == k + {Trimmed(x, next)} && Trimmed(x, next) !in k else k' == k
  {
  }

  /** The root of the heap is a least item. */
  lemma RootLeast(h: seq<Item>, items: set<Item>)
    requires RealtimeHeap.Heap(h) && Lists(h, items) && h != []
    ensures IsLeast(items, h[0])
  {
    ListsMembers(h, items);
    forall y | y in items ensures !Less(y, h[0]) {
      var k :| 0 <= k < |h| && h[k] == y;
      RealtimeHeap.RootIsLeast(h, k);
    }
  }

  class RealtimeStream {
    const cfg: Config
    var heap: seq<Item>
    var sq: nat
    var lastEmitted: int
    var maxSeen: int
    var activeID: string
    var activeName: string
    var closed: bool
    var err: Option<End>
    ghost var items: set<Item>
    ghost var emitted: seq<Item>

    ghost function View(): Stream
      reads this
    {
      Stream(items, sq, lastEmitted, maxSeen, activeID, activeName, closed, err, emitted)
    }

    ghost predicate Shaped()
      reads this
    {
      RealtimeHeap.Heap(heap) && Lists(heap, items)
    }

    ghost predicate Valid()
      reads this
    {
      Shaped() && Inv(cfg, View())
    }

    constructor (cfg: Config)
      requires cfg.maxDuration > 0
      ensures Valid() && this.cfg == cfg && View() == Start()
    {
      this.cfg := cfg;
      heap, sq, lastEmitted, maxSeen := [], 0, -1, -1;
      activeID, activeName, closed, err := "", "", false, None;
      items, emitted := {}, [];
      StartKeeps(cfg);
    }

    /** The loop of evictOverflowLocked and of dropLateLocked. */
    method PopBelow(t: int)
      requires Shaped()
      modifies this`heap, this`items
      ensures Shaped() && items == set i | i in old(items) && i.timestamp >= t
    {
      while heap != [] && heap[0].timestamp < t
        invariant Shaped() && items <= old(items)
        invariant forall i :: i in old(items) && i !in items ==> i.timestamp < t
        decreases |heap|
      {
        ListsOnce(heap, items, 0);
        items := items - {heap[0]};
        heap := RealtimeHeap.Pop(heap);
      }
      if heap != [] {
        RootLeast(heap, items);
      } else {
        ListsMembers(heap, items);
      }
    }

    /** The routes with a queued control EOS no later than `next`. */
    method CloseRoutes(next: Ctrl) returns (ids: set<string>)
      requires Shaped()
      ensures ids == ClosedRoutes(items, next)
    {
      ids := {};
      ListsMembers(heap, items);
      for k := 0 to |heap|
        invariant forall id :: id in ids <==> exists j :: 0 <= j < k && Closes(heap[j], next) && heap[j].chunk.Id() == id
      {
        if Closes(heap[k], next) {
          ids := ids + {heap[k].chunk.Id()};
        }
      }
    }

    /** The filtering loop of dropSupersededStreamLocked. */
    method Filter(next: Ctrl, closedRoutes: set<string>) returns (kept: seq<Item>)
      requires Shaped() && Numbered(View())
      ensures Lists(kept, Kept(items, closedRoutes, next))
    {
      kept := [];
      ghost var seen: set<Item> := {};
      ListsMembers(heap, items);
      for k := 0 to |heap|
        invariant forall i :: i in seen <==> i in heap[..k]
        invariant Lists(kept, Kept(seen, closedRoutes, next))
      {
        var x := heap[k];
        ListsOnce(heap, items, k);
        KeptStep(items, seen, closedRoutes, next, x);
        if Survives(x, closedRoutes, next) {
          ListsGrows(kept, Kept(seen, closedRoutes, next), Trimmed(x, next));
          kept := kept + [Trimmed(x, next)];
        }
        seen := seen + {x};
        assert heap[..k + 1] == heap[..k] + [x];
      }
      assert heap[..|heap|] == heap;
      assert seen == items;
    }

    method RecomputeMaxSeen()
      requires Shaped()
      modifies this`maxSeen
      ensures Shaped() && maxSeen == MaxStamp(lastEmitted, items)
    {
      var m := lastEmitted;
      for k := 0 to |heap|
        invariant lastEmitted <= m && (m == lastEmitted || exists j :: 0 <= j < k && heap[j].timestamp == m)
        invariant forall j :: 0 <= j < k ==> heap[j].timestamp <= m
      {
        if heap[k].timestamp > m {
          m := heap[k].timestamp;
        }
      }
      maxSeen := m;
      ListsMembers(heap, items);
    }

    method DropSuperseded(next: Ctrl)
      requires Shaped() && Numbered(View())
      modifies this`heap, this`items, this`maxSeen
      ensures Shaped() && View() == Supersede(old(View()), next)
    {
      ListsNone(heap, items);
      if next.streamID == "" || heap == [] {
        return;
      }
      KeepSurvivors(next);
      RecomputeMaxSeen();
    }

    method KeepSurvivors(next: Ctrl)
      requires Shaped() && Numbered(View())
      modifies this`heap, this`items
      ensures Shaped() && items == Surviving(old(items), next)
    {
      var closedRoutes := CloseRoutes(next);
      var kept := Filter(next, closedRoutes);
      items := Surviving(items, next);
      heap := RealtimeHeap.Init(kept);
    }

    /** A push on a closed stream fails and changes nothing. */
    method Push(now: nat, c: Chunk) returns (ok: bool)
      requires Valid()
      modifies this
      ensures Valid() && ok == !old(closed)
      ensures View() == RealtimeStreams.Push(cfg, old(View()), now, c)
    {
      PushKeeps(cfg, View(), now, c);
      Laws(cfg, View());
      ok := !closed;
      if ok {
        PushOpen(now, c);
      }
    }

    method PushOpen(now: nat, c: Chunk)
      requires Shaped() && Numbered(View()) && !closed
      modifies this
      ensures Shaped() && View() == RealtimeStreams.Push(cfg, old(View()), now, c)
    {
      if c.Begins() {
        DropSuperseded(c.ctrl.value);
        SupersedeNumbered(old(View()), c.ctrl.value);
        activeID, activeName := c.Id(), c.Label();
      } else if c.ctrl.Some? && activeID != "" && Replaces(activeID, activeName, c) && c.Audio() {
        return;
      }
      ghost var s := View();
      assert s == Routed(old(View()), c);
      var p := Place(now, c);
      if p.Some? {
        Insert(p.value.chunk, p.value.timestamp);
      }
    }

    /** chunkTimestampLocked */
    method Timestamp(now: nat, c: Chunk) returns (ts: int)
      ensures ts == if HasStamp(c) then c.ctrl.value.timestamp else DefaultStamp(View(), now)
    {
      if c.ctrl.Some? && c.ctrl.value.timestamp > 0 {
        return c.ctrl.value.timestamp;
      }
      ts := now / MILLI;
      if lastEmitted >= 0 && ts <= lastEmitted {
        ts := lastEmitted + 1;
      }
      if maxSeen >= 0 && ts <= maxSeen {
        ts := maxSeen + 1;
      }
    }

    /** The chunk as it is queued and its timestamp, unless it is dropped as late. */
    method Place(now: nat, c: Chunk) returns (p: Option<Place>)
      ensures p == Placing(View(), now, c)
    {
      var ts := Timestamp(now, c);
      var c1 := if HasStamp(c) then c else c.Stamped(ts);
      if lastEmitted >= 0 && ts < lastEmitted {
        if !(c1.ctrl.Some? && activeID != "" && c1.ctrl.value.streamID == activeID) {
          return None;
        }
        ts := lastEmitted + 1;
        c1 := c1.Stamped(ts);
      }
      return Some(RealtimeStreams.Place(c1, ts));
    }

    method Insert(c: Chunk, ts: int)
      requires Shaped() && forall i :: i in items ==> i.sq <= sq
      modifies this`heap, this`items, this`sq, this`maxSeen
      ensures Shaped() && View() == Enqueue(cfg, old(View()), c, ts)
    {
      Number(c, ts);
      EvictOverflow();
    }

    method Number(c: Chunk, ts: int)
      requires Shaped() && forall i :: i in items ==> i.sq <= sq
      modifies this`heap, this`items, this`sq, this`maxSeen
      ensures Shaped() && View() == Numbering(old(View()), c, ts)
    {
      sq := sq + 1;
      Add(Item(c, sq, ts));
      maxSeen := if ts > maxSeen then ts else maxSeen;
    }

    method Add(x: Item)
      requires Shaped() && x !in items
      modifies this`heap, this`items
      ensures Shaped() && items == old(items) + {x}
    {
      ListsGrows(heap, items, x);
      heap := RealtimeHeap.Push(heap, x);
      items := items + {x};
    }

    method EvictOverflow()
      requires Shaped()
      modifies this`heap, this`items
      ensures Shaped() && View() == Evict(cfg, old(View()))
    {
      if maxSeen < 0 || cfg.maxDuration <= 0 {
        return;
      }
      PopBelow(maxSeen - cfg.maxDuration / MILLI);
    }

    /** One round of Next, at time `now`. */
    method Next(now: nat) returns (r: Readout)
      requires Valid()
      modifies this
      ensures Valid() && NextRound(cfg, old(View()), now, r, View())
    {
      r := TakeDue(now);
      NextKeeps(cfg, old(View()), now, r, View());
    }

    method TakeDue(now: nat) returns (r: Readout)
      requires Shaped()
      modifies this
      ensures Shaped() && NextRound(cfg, old(View()), now, r, View())
    {
      if lastEmitted >= 0 {
        PopBelow(lastEmitted);
      }
      assert items == WithoutLate(old(View()));
      ListsMembers(heap, items);
      if heap != [] {
        var x := heap[0];
        RootLeast(heap, items);
        r := Emit(now);
        assert ReadsOut(cfg, old(View()).(items := WithoutLate(old(View()))), x, now, r, View());
      } else if closed {
        r := Ends(if err.Some? then err.value else Eof);
      } else {
        r := Sleeps;
      }
    }

    method Emit(now: nat) returns (r: Readout)
      requires Shaped() && heap != []
      modifies this
      ensures Shaped() && ReadsOut(cfg, old(View()), old(heap)[0], now, r, View())
    {
      var x := heap[0];
      if closed || x.timestamp * MILLI + cfg.delay <= now {
        ListsOnce(heap, items, 0);
        heap := RealtimeHeap.Pop(heap);
        items, emitted := items - {x}, emitted + [x];
        lastEmitted := x.timestamp;
        r := Emits(x);
      } else {
        r := Sleeps;
      }
    }

    method CloseWithError(e: Option<End>)
      requires Valid()
      modifies this`closed, this`err
      ensures Valid() && View() == Close(old(View()), if e.Some? then e.value else Pipe)
    {
      SameKeeps(cfg, View(), Close(View(), if e.Some? then e.value else Pipe));
      if !closed {
        closed, err := true, Some(if e.Some? then e.value else Pipe);
      }
    }
  }
}
