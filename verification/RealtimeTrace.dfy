/** Where the chunks that a realtime stream hands out come from, and in which order they come
    (pkgs/genx/realtime_stream.go). */
module RealtimeTraces {
  import opened Options
  import opened RealtimeTypes
  import opened RealtimeStreams

  /** The states that a run passes through. */
  ghost predicate Trace(cfg: Config, es: seq<Event>, ss: seq<Stream>) {
    && |ss| == |es| + 1 && ss[0] == Start()
    && forall k :: 0 <= k < |es| ==> StepTo(cfg, ss[k], es[k], ss[k + 1])
  }

  lemma {:induction false} TraceRuns(cfg: Config, es: seq<Event>, ss: seq<Stream>, k: nat)
    requires Trace(cfg, es, ss) && k <= |es|
    ensures Runs(cfg, es[..k], ss[k])
  {
    if k > 0 {
      TraceRuns(cfg, es, ss, k - 1);
      assert es[..k][..k - 1] == es[..k - 1] && es[..k][k - 1] == es[k - 1];
      assert StepTo(cfg, ss[k - 1], es[k - 1], ss[k]);
    }
  }

  /** Supersession may take the audio out of a boundary; nothing else changes. */
  predicate Same(c: Chunk, d: Chunk) { d == c || (c.part.Blob? && d == c.(part := Blob(c.part.audio, []))) }

  /** `x` is what the push of `c` in state `s` queued. */
  ghost predicate Queued(s: Stream, now: nat, c: Chunk, x: Item) {
    x.sq == s.sq + 1 && IsPlace(Routed(s, c), now, c, x.timestamp) && Same(c.Stamped(x.timestamp), x.chunk)
  }

  /** Push number `k` queued `x`. */
  ghost predicate Came(es: seq<Event>, ss: seq<Stream>, k: nat, x: Item)
    requires |ss| == |es| + 1
  {
    k < |es| && es[k].Pushes? && ss[k + 1].sq == x.sq && Queued(ss[k], es[k].now, es[k].chunk, x)
  }

  ghost predicate Has(s: Stream, x: Item) { x in s.items || x in s.emitted }

  /** `x` was there before, up to what supersession took out of it. */
  ghost predicate Older(s: Stream, x: Item, y: Item) {
    Has(s, y) && y.sq == x.sq && y.timestamp == x.timestamp && Same(y.chunk, x.chunk)
  }

  lemma TrimmedSame(i: Item, next: Ctrl)
    ensures Same(i.chunk, Trimmed(i, next).chunk)
  {
  }

  lemma RoutedOlder(s: Stream, c: Chunk, x: Item)
    requires Has(Routed(s, c), x)
    ensures exists y :: Older(s, x, y)
  {
    if x in s.items || x in s.emitted {
      assert Older(s, x, x);
    } else {
      var y :| y in s.items && x == Trimmed(y, c.ctrl.value);
      TrimmedSame(y, c.ctrl.value);
      assert Older(s, x, y);
    }
  }

  lemma PushHas(cfg: Config, s: Stream, now: nat, c: Chunk, x: Item)
    requires Inv(cfg, s) && Has(Push(cfg, s, now, c), x)
    ensures (exists y :: Older(s, x, y)) || (Push(cfg, s, now, c).sq == x.sq && Queued(s, now, c, x))
  {
    var s1 := Routed(s, c);
    if Has(s1, x) {
      RoutedOlder(s, c, x);
    } else if Has(s, x) {
      assert Older(s, x, x);
    } else {
      if c.Begins() {
        SupersedeKeeps(cfg, s, c.ctrl.value);
      }
      PlacesExactly(cfg, s1, now, c);
    }
  }

  lemma StepHas(cfg: Config, s: Stream, e: Event, s': Stream, x: Item)
    requires Inv(cfg, s) && StepTo(cfg, s, e, s') && Has(s', x)
    ensures || (exists y :: Older(s, x, y))
            || (e.Pushes? && s'.sq == x.sq && Queued(s, e.now, e.chunk, x))
  {
    match e
    case Pushes(now, c) => PushHas(cfg, s, now, c, x);
    case Reads(now) =>
      var r :| NextRound(cfg, s, now, r, s');
      NextKeeps(cfg, s, now, r, s');
      assert Older(s, x, x);
    case CloseCall(_) => assert Older(s, x, x);
  }

  /** Whatever is queued or was handed out came from one push: under that push's place, and
      with nothing but its timestamp filled in and, if it was superseded, its audio gone. */
  lemma {:induction false} FromPushes(cfg: Config, es: seq<Event>, ss: seq<Stream>, n: nat, x: Item) returns (k: nat)
    requires cfg.maxDuration > 0 && Trace(cfg, es, ss) && n <= |es| && Has(ss[n], x)
    ensures k < n && Came(es, ss, k, x)
  {
    k := n - 1;
    var s := ss[k];
    TraceRuns(cfg, es, ss, k);
    RunKeeps(cfg, es[..k], s);
    assert StepTo(cfg, s, es[k], ss[n]);
    StepHas(cfg, s, es[k], ss[n], x);
    if exists y :: Older(s, x, y) {
      var y :| Older(s, x, y);
      k := FromPushes(cfg, es, ss, k, y);
    }
  }

  lemma StepNumbers(cfg: Config, s: Stream, e: Event, s': Stream)
    requires StepTo(cfg, s, e, s')
    ensures s.sq <= s'.sq <= s.sq + 1
  {
    if e.Reads? {
      var r :| NextRound(cfg, s, e.now, r, s');
    }
  }

  lemma {:induction false} NumbersGrow(cfg: Config, es: seq<Event>, ss: seq<Stream>, k: nat, l: nat)
    requires Trace(cfg, es, ss) && k <= l <= |es|
    ensures ss[k].sq <= ss[l].sq
  {
    if k < l {
      NumbersGrow(cfg, es, ss, k, l - 1);
      assert StepTo(cfg, ss[l - 1], es[l - 1], ss[l]);
      StepNumbers(cfg, ss[l - 1], es[l - 1], ss[l]);
    }
  }

  /** Arrival numbers follow the order of the pushes. */
  lemma ArrivalsFollow(cfg: Config, es: seq<Event>, ss: seq<Stream>, k: nat, x: Item, l: nat, y: Item)
    requires Trace(cfg, es, ss) && Came(es, ss, k, x) && Came(es, ss, l, y)
    ensures k < l <==> x.sq < y.sq
  {
    if k < l {
      NumbersGrow(cfg, es, ss, k + 1, l);
    } else if l < k {
      NumbersGrow(cfg, es, ss, l + 1, k);
    }
  }

  /** No push is handed out twice, and none that was handed out is queued. */
  lemma HandedOutOnce(cfg: Config, es: seq<Event>, ss: seq<Stream>, x: Item, y: Item)
    requires cfg.maxDuration > 0 && Trace(cfg, es, ss) && Has(ss[|es|], x) && Has(ss[|es|], y) && x.sq == y.sq
    ensures x.timestamp == y.timestamp && !Less(x, y)
  {
    var k := FromPushes(cfg, es, ss, |es|, x);
    var l := FromPushes(cfg, es, ss, |es|, y);
    ArrivalsFollow(cfg, es, ss, k, x, l, y);
    ArrivalsFollow(cfg, es, ss, l, y, k, x);
  }

  /** Push `k` brought a timestamp and was not late. */
  ghost predicate OnTime(es: seq<Event>, ss: seq<Stream>, k: nat)
    requires |ss| == |es| + 1
  {
    k < |es| && es[k].Pushes? && HasStamp(es[k].chunk) && es[k].chunk.ctrl.value.timestamp >= ss[k].lastEmitted
  }

  lemma EndOrdered(cfg: Config, es: seq<Event>, ss: seq<Stream>)
    requires cfg.maxDuration > 0 && Trace(cfg, es, ss)
    ensures Ordered(ss[|es|])
  {
    TraceRuns(cfg, es, ss, |es|);
    assert es[..|es|] == es;
    RunKeeps(cfg, es, ss[|es|]);
    Laws(cfg, ss[|es|]);
  }

  /** The order of items is the order of the timestamps they were pushed with, then of the
      pushes. */
  lemma LessByPush(cfg: Config, es: seq<Event>, ss: seq<Stream>, k: nat, x: Item, l: nat, y: Item)
    requires Trace(cfg, es, ss) && OnTime(es, ss, k) && OnTime(es, ss, l) && Came(es, ss, k, x) && Came(es, ss, l, y)
    ensures var a, b := es[k].chunk.ctrl.value.timestamp, es[l].chunk.ctrl.value.timestamp;
      Less(x, y) <==> a < b || (a == b && k < l)
  {
    ArrivalsFollow(cfg, es, ss, k, x, l, y);
  }

  lemma LessByPlace(out: seq<Item>, i: nat, j: nat)
    requires Increasing(out) && i < |out| && j < |out|
    ensures i < j <==> Less(out[i], out[j])
  {
    assert j < i ==> Less(out[j], out[i]);
  }

  /** Of two chunks that were pushed with different timestamps and on time, the one with the
      smaller timestamp comes first, in whichever order they were pushed; with equal timestamps
      the one that was pushed first. */
  lemma ReadInStampOrder(cfg: Config, es: seq<Event>, ss: seq<Stream>, k: nat, l: nat, i: nat, j: nat)
    requires cfg.maxDuration > 0 && Trace(cfg, es, ss) && OnTime(es, ss, k) && OnTime(es, ss, l)
    requires var out := ss[|es|].emitted;
      i < |out| && j < |out| && Came(es, ss, k, out[i]) && Came(es, ss, l, out[j])
    ensures var a, b := es[k].chunk.ctrl.value.timestamp, es[l].chunk.ctrl.value.timestamp;
      i < j <==> a < b || (a == b && k < l)
  {
    var out := ss[|es|].emitted;
    EndOrdered(cfg, es, ss);
    LessByPush(cfg, es, ss, k, out[i], l, out[j]);
    LessByPlace(out, i, j);
  }

  lemma EmittedBefore(s: Stream, i: nat, y: Item)
    requires Ordered(s) && i < |s.emitted| && y in s.items
    ensures Less(s.emitted[i], y)
  {
    assert i < |s.emitted| - 1 ==> Less(s.emitted[i], s.emitted[|s.emitted| - 1]);
  }

  /** Nothing overtakes: what is still queued has a larger timestamp than what was handed out, or
      the same one and was pushed later. */
  lemma NothingOvertakes(cfg: Config, es: seq<Event>, ss: seq<Stream>, k: nat, l: nat, x: Item, y: Item)
    requires cfg.maxDuration > 0 && Trace(cfg, es, ss) && OnTime(es, ss, k) && OnTime(es, ss, l)
    requires x in ss[|es|].emitted && y in ss[|es|].items && Came(es, ss, k, x) && Came(es, ss, l, y)
    ensures var a, b := es[k].chunk.ctrl.value.timestamp, es[l].chunk.ctrl.value.timestamp;
      a < b || (a == b && k < l)
  {
    EndOrdered(cfg, es, ss);
    LessByPush(cfg, es, ss, k, x, l, y);
    var out := ss[|es|].emitted;
    var i :| 0 <= i < |out| && out[i] == x;
    EmittedBefore(ss[|es|], i, y);
  }
}
