/** Wake-ups of the blocking ring (pkgs/buffer/block_buffer.go). Readers and writers
    share one condition variable and Signal wakes a single sleeper, so whether a wake-up
    can go to the wrong thread depends on how many threads of each kind there are. */
module BlockBufferWakeups {
  import opened BufferTypes
  import opened Options
  import opened BlockBuffers
  import opened BlockBufferRuns

  /** Threads below `producers` only write, the others only read; anyone may close. */
  predicate InRole<T>(producers: nat, e: Step<T>) {
    e.Call? ==> (e.op.Put? <==> e.t < producers)
  }

  ghost predicate RunsAs<T(!new)>(producers: nat, s: State<T>, es: seq<Step<T>>, s': State<T>) {
    Runs(s, es, s') && forall i :: 0 <= i < |es| ==> InRole(producers, es[i])
  }

  /** Signal always wakes the longest sleeper. */
  ghost predicate Fifo<T>(es: seq<Step<T>>) {
    forall i :: 0 <= i < |es| && es[i].Pass? ==> es[i].pick == 0
  }

  predicate Open<T>(s: State<T>) {
    !s.shared.closeWrite && s.shared.closeErr.None?
  }

  /** The condition under which the source keeps the call asleep. */
  predicate MustWait<T>(s: State<T>, op: Op<T>) {
    Open(s) && if op.Put? then |s.shared.ring| == s.cap else s.shared.ring == []
  }

  /** No sleeper's wait condition is already false. */
  ghost predicate NoLostWakeup<T>(s: State<T>) {
    forall t :: 0 <= t < |s.threads| && s.threads[t].Asleep? ==> MustWait(s, s.threads[t].op)
  }

  /** Some sleeper has no reason to wait, and nobody is left who would wake it. */
  ghost predicate Wedged<T>(s: State<T>) {
    !NoLostWakeup(s) && forall t :: 0 <= t < |s.threads| ==> !s.threads[t].Ready?
  }

  /** Every thread is asleep, and some of them has no reason to wait. */
  ghost predicate Deadlocked<T>(s: State<T>) {
    !NoLostWakeup(s) && forall t :: 0 <= t < |s.threads| ==> s.threads[t].Asleep?
  }

  /** Then only a close can happen. */
  lemma DeadlockIsPermanent<T>(s: State<T>, e: Step<T>)
    requires Deadlocked(s) && Enabled(s, e)
    ensures e.CloseWrite? || e.CloseWithError?
  {
  }

  ghost predicate RolesKept<T>(producers: nat, s: State<T>) {
    && (forall t :: 0 <= t < |s.threads| && !s.threads[t].Idle? ==> (s.threads[t].op.Put? <==> t < producers))
    && (producers == 0 ==> s.shared.ring == [])
  }

  /** Only writers, only readers, or one of each. */
  predicate Paired(producers: nat, consumers: nat) {
    producers == 0 || consumers == 0 || (producers == 1 && consumers == 1)
  }

  /** What every run of a paired system keeps. */
  ghost predicate Awake<T>(producers: nat, s: State<T>) {
    && RolesKept(producers, s) && NoLostWakeup(s)
    && producers <= |s.threads| && Paired(producers, |s.threads| - producers)
  }

  /** With a sleeper of the other kind only, and at most one of it, Signal wakes it. */
  lemma SignalWakesAll<T>(s: State<T>, t: nat, pick: nat)
    requires WellFormed(s) && t < |s.threads| <= 2 && !s.threads[t].Asleep?
    requires s.sleepers != [] ==> pick < |s.sleepers|
    ensures forall u :: 0 <= u < |s.threads| ==> !Signal(s, pick).threads[u].Asleep?
  {
    var s' := Signal(s, pick);
    SignalKeeps(s, pick);
    forall u | 0 <= u < |s.threads| ensures !s'.threads[u].Asleep? {
      if s.threads[u].Asleep? {
        assert u in s.sleepers;
        assert s.sleepers[pick] < |s.threads| && s.sleepers[pick] != t;
        assert s.sleepers[pick] == u;
      }
    }
  }

  /** After the element-moving part of a write, every sleeper still has to wait. */
  lemma PutSomeAwake<T>(producers: nat, s: State<T>, t: nat, pick: nat, n: nat)
    requires WellFormed(s) && Awake(producers, s) && Enabled(s, Pass(t, pick)) && s.threads[t].op.Put?
    requires s.threads[t].op.done + n <= |s.threads[t].op.p| && |s.shared.ring| + n <= s.cap
    ensures var s' := PutSome(s, t, pick, n);
      && Awake(producers, s') && |s'.threads| == |s.threads| == |s'.returned|
      && Open(s') == Open(s) && |s'.shared.ring| == |s.shared.ring| + n && s'.cap == s.cap
  {
    var s1 := Stow(s, t, s.threads[t].op, n);
    if n == 0 {
      assert s1.shared.ring == s.shared.ring;
    } else {
      SignalKeeps(s1, pick);
      if |s.threads| <= 2 {
        SignalWakesAll(s1, t, pick);
      } else {
        assert producers == |s.threads|;
      }
    }
  }

  lemma PutEndAwake<T>(producers: nat, s: State<T>, t: nat, op: Op<T>, blocks: bool)
    requires Awake(producers, s) && t < |s.threads| == |s.returned| && t < producers
    requires op.Put? && op.done <= |op.p| && (blocks ==> Open(s) && |s.shared.ring| == s.cap)
    ensures Awake(producers, PutEnd(s, t, op, blocks))
  {
  }

  lemma PutPassAwake<T>(producers: nat, s: State<T>, t: nat, pick: nat)
    requires WellFormed(s) && Awake(producers, s) && Enabled(s, Pass(t, pick)) && s.threads[t].op.Put?
    ensures Awake(producers, PutPass(s, t, pick))
  {
    var op := s.threads[t].op;
    var n := PutCount(s.shared, s.cap, op.p[op.done..]);
    var blocks := PutOutcome(s.shared, s.cap, op.p[op.done..]).Blocks?;
    var mid, op' := PutSome(s, t, pick, n), Put(op.p, op.done + n);
    PutSomeAwake(producers, s, t, pick, n);
    assert PutPass(s, t, pick) == PutEnd(mid, t, op', blocks);
    PutEndAwake(producers, mid, t, op', blocks);
  }

  /** A read that succeeds wakes whoever sleeps. */
  lemma TakeDoneAwake<T>(producers: nat, t: nat, pick: nat, s1: State<T>)
    requires WellFormed(s1) && RolesKept(producers, s1) && t < |s1.threads| <= 2 && s1.threads[t].Ready?
    requires s1.sleepers != [] ==> pick < |s1.sleepers|
    requires producers <= |s1.threads| && Paired(producers, |s1.threads| - producers)
    ensures Awake(producers, Return(Signal(s1, pick), t, []))
  {
    SignalKeeps(s1, pick);
    SignalWakesAll(s1, t, pick);
  }

  lemma TakePassAwake<T>(producers: nat, s: State<T>, t: nat, pick: nat)
    requires WellFormed(s) && Awake(producers, s) && Enabled(s, Pass(t, pick)) && s.threads[t].op.Take?
    ensures Awake(producers, TakePass(s, t, pick))
  {
    var op := s.threads[t].op;
    var n := TakeCount(s.shared, op.max);
    if TakeOutcome(s.shared, EndOfFile).Done? {
      var s1 := s.(shared := s.shared.(ring := s.shared.ring[n..]),
                   consumed := s.consumed + Tag(t, s.shared.ring[..n]));
      assert TakePass(s, t, pick) == Return(Signal(s1, pick), t, []);
      TakeDoneAwake(producers, t, pick, s1);
    }
  }

  lemma StepAwake<T>(producers: nat, s: State<T>, e: Step<T>)
    requires WellFormed(s) && Awake(producers, s) && Enabled(s, e) && InRole(producers, e)
    ensures Awake(producers, Next(s, e))
  {
    match e
    case Call(t, op) =>
    case Pass(t, pick) =>
      if s.threads[t].op.Put? {
        PutPassAwake(producers, s, t, pick);
      } else {
        TakePassAwake(producers, s, t, pick);
      }
    case CloseWrite =>
    case CloseWithError(_) =>
  }

  /** With only writers, only readers, or one of each, and any closers, no reachable state
      has a sleeper whose wait condition is already false, whatever Signal chooses. */
  lemma {:induction false} PairedRunNeverLoses<T(!new)>(cap: nat, producers: nat, consumers: nat,
                                                       es: seq<Step<T>>, s: State<T>)
    requires 0 < cap && Paired(producers, consumers)
    requires RunsAs(producers, Init(cap, producers + consumers), es, s)
    ensures Awake(producers, s) && NoLostWakeup(s)
  {
    if es != [] {
      var s0, pre, e := Init<T>(cap, producers + consumers), es[..|es| - 1], es[|es| - 1];
      var m :| Runs(s0, pre, m) && Steps(m, e, s);
      PairedRunNeverLoses(cap, producers, consumers, pre, m);
      StepAwake(producers, m, e);
    }
  }

  // ------------------------------------------------------------- the runs that wedge

  /** A state of an open ring, seen without its logs. */
  ghost predicate Looks<T>(s: State<T>, cap: nat, held: nat, threads: seq<Thread<T>>, sleepers: seq<nat>) {
    s.cap == cap && |s.shared.ring| == held && Open(s) && s.threads == threads && s.sleepers == sleepers
  }

  /** `s` is reached by a first-in-first-out run of threads in their roles. */
  ghost predicate Reached<T(!new)>(cap: nat, producers: nat, consumers: nat, s: State<T>) {
    exists es :: RunsAs(producers, Init(cap, producers + consumers), es, s) && Fifo(es)
  }

  ghost predicate CanWedge<T(!new)>(cap: nat, producers: nat, consumers: nat) {
    exists s: State<T> :: Reached(cap, producers, consumers, s) && Wedged(s)
  }

  ghost predicate CanDeadlock<T(!new)>(cap: nat, producers: nat, consumers: nat) {
    exists s: State<T> :: Reached(cap, producers, consumers, s) && Deadlocked(s)
  }

  /** The run wedges, and with three threads all of them sleep for good. */
  ghost predicate Wedges<T(!new)>(cap: nat, producers: nat, consumers: nat) {
    CanWedge<T>(cap, producers, consumers) && (producers + consumers == 3 ==> CanDeadlock<T>(cap, producers, consumers))
  }

  /** Such a run leads to a state that looks like this. */
  ghost predicate CanLook<T(!new)>(cap: nat, producers: nat, consumers: nat,
                                   held: nat, threads: seq<Thread<T>>, sleepers: seq<nat>) {
    exists s :: Reached(cap, producers, consumers, s) && Looks(s, cap, held, threads, sleepers)
  }

  lemma RunExtends<T(!new)>(s0: State<T>, es: seq<Step<T>>, s: State<T>, e: Step<T>)
    requires Runs(s0, es, s) && WellFormed(s) && Enabled(s, e)
    ensures Runs(s0, es + [e], Next(s, e))
  {
    var es' := es + [e];
    assert es'[..|es'| - 1] == es && es'[|es'| - 1] == e;
  }

  lemma StepReaches<T(!new)>(cap: nat, producers: nat, consumers: nat, s: State<T>, e: Step<T>)
    requires Reached(cap, producers, consumers, s) && WellFormed(s)
    requires Enabled(s, e) && InRole(producers, e) && (e.Pass? ==> e.pick == 0)
    ensures Reached(cap, producers, consumers, Next(s, e))
  {
    var s0 := Init<T>(cap, producers + consumers);
    var es :| RunsAs(producers, s0, es, s) && Fifo(es);
    var s' := Next(s, e);
    RunExtends(s0, es, s, e);
    assert RunsAs(producers, s0, es + [e], s') && Fifo(es + [e]);
  }

  lemma ReachedConserves<T(!new)>(cap: nat, producers: nat, consumers: nat, s: State<T>)
    requires 0 < cap && Reached(cap, producers, consumers, s)
    ensures Conserved(s)
  {
    var es :| RunsAs(producers, Init(cap, producers + consumers), es, s) && Fifo(es);
    RunConserves(cap, producers + consumers, es, s);
  }

  lemma LookFollows<T(!new)>(cap: nat, producers: nat, consumers: nat, s: State<T>, e: Step<T>,
                             held: nat, threads: seq<Thread<T>>, sleepers: seq<nat>)
    requires Reached(cap, producers, consumers, s) && WellFormed(s)
    requires Enabled(s, e) && InRole(producers, e) && (e.Pass? ==> e.pick == 0)
    requires Looks(Next(s, e), cap, held, threads, sleepers)
    ensures CanLook(cap, producers, consumers, held, threads, sleepers)
  {
    var s' := Next(s, e);
    StepReaches(cap, producers, consumers, s, e);
    assert Reached(cap, producers, consumers, s');
  }

  lemma StartLooks<T(!new)>(cap: nat, producers: nat, consumers: nat)
    requires 0 < cap
    ensures CanLook<T>(cap, producers, consumers, 0, seq(producers + consumers, _ => Idle), [])
  {
    var s0 := Init<T>(cap, producers + consumers);
    assert RunsAs(producers, s0, [], s0) && Fifo<T>([]);
    assert Reached(cap, producers, consumers, s0) && Looks(s0, cap, 0, s0.threads, []);
  }

  lemma Calls<T(!new)>(cap: nat, producers: nat, consumers: nat, t: nat, op: Op<T>,
                       held: nat, threads: seq<Thread<T>>, sleepers: seq<nat>)
    requires 0 < cap && CanLook(cap, producers, consumers, held, threads, sleepers)
    requires t < |threads| && threads[t].Idle? && (op.Put? <==> t < producers) && (op.Put? ==> op.done == 0)
    ensures CanLook(cap, producers, consumers, held, threads[t := Ready(op)], sleepers)
  {
    var s: State<T> :| Reached(cap, producers, consumers, s) && Looks(s, cap, held, threads, sleepers);
    ReachedConserves(cap, producers, consumers, s);
    LookFollows(cap, producers, consumers, s, Call(t, op), held, threads[t := Ready(op)], sleepers);
  }

  /** Waking the longest sleeper turns these threads and sleepers into those. */
  ghost predicate Wakes<T>(threads: seq<Thread<T>>, sleepers: seq<nat>, threads': seq<Thread<T>>, sleepers': seq<nat>) {
    if sleepers == [] then threads' == threads && sleepers' == []
    else
      && sleepers[0] < |threads| && threads[sleepers[0]].Asleep?
      && threads' == threads[sleepers[0] := Ready(threads[sleepers[0]].op)] && sleepers' == sleepers[1..]
  }

  lemma SignalWakes<T>(s: State<T>, threads': seq<Thread<T>>, sleepers': seq<nat>)
    requires WellFormed(s) && Wakes(s.threads, s.sleepers, threads', sleepers')
    ensures Signal(s, 0) == s.(threads := threads', sleepers := sleepers')
  {
    if s.sleepers != [] {
      assert s.sleepers[..0] + s.sleepers[1..] == s.sleepers[1..];
    }
  }

  /** A write that finds the ring full. */
  lemma PutSleeps<T(!new)>(cap: nat, producers: nat, consumers: nat, t: nat, op: Op<T>,
                           threads: seq<Thread<T>>, sleepers: seq<nat>)
    requires 0 < cap && CanLook(cap, producers, consumers, cap, threads, sleepers)
    requires t < |threads| && threads[t] == Ready(op) && op.Put? && op.done < |op.p|
    ensures CanLook(cap, producers, consumers, cap, threads[t := Asleep(op)], sleepers + [t])
  {
    var s: State<T> :| Reached(cap, producers, consumers, s) && Looks(s, cap, cap, threads, sleepers);
    ReachedConserves(cap, producers, consumers, s);
    PutSleepsStep(s, t, op);
    LookFollows(cap, producers, consumers, s, Pass(t, 0), cap, threads[t := Asleep(op)], sleepers + [t]);
  }

  lemma PutSleepsStep<T>(s: State<T>, t: nat, op: Op<T>)
    requires WellFormed(s) && t < |s.threads| && s.threads[t] == Ready(op) && op.Put? && op.done < |op.p|
    requires Open(s) && |s.shared.ring| == s.cap
    ensures Looks(Next(s, Pass(t, 0)), s.cap, s.cap, s.threads[t := Asleep(op)], s.sleepers + [t])
  {
    assert PutCount(s.shared, s.cap, op.p[op.done..]) == 0;
    var s1 := PutSome(s, t, 0, 0);
    assert Next(s, Pass(t, 0)) == PutEnd(s1, t, Put(op.p, op.done + 0), true);
  }

  /** A write that fills the empty ring, wakes the longest sleeper and has more to write. */
  lemma PutFills<T(!new)>(cap: nat, producers: nat, consumers: nat, t: nat, op: Op<T>, op': Op<T>,
                          threads: seq<Thread<T>>, sleepers: seq<nat>, threads': seq<Thread<T>>, sleepers': seq<nat>)
    requires 0 < cap && CanLook(cap, producers, consumers, 0, threads, sleepers)
    requires t < |threads| && threads[t] == Ready(op) && op.Put? && op.done + cap < |op.p|
    requires Wakes(threads, sleepers, threads', sleepers') && op' == Put(op.p, op.done + cap)
    ensures CanLook(cap, producers, consumers, cap, threads'[t := Asleep(op')], sleepers' + [t])
  {
    var s: State<T> :| Reached(cap, producers, consumers, s) && Looks(s, cap, 0, threads, sleepers);
    ReachedConserves(cap, producers, consumers, s);
    PutFillsStep(s, t, op, op', threads', sleepers');
    LookFollows(cap, producers, consumers, s, Pass(t, 0), cap, threads'[t := Asleep(op')], sleepers' + [t]);
  }

  lemma PutFillsStep<T>(s: State<T>, t: nat, op: Op<T>, op': Op<T>, threads': seq<Thread<T>>, sleepers': seq<nat>)
    requires WellFormed(s) && t < |s.threads| && s.threads[t] == Ready(op) && op.Put? && op.done + s.cap < |op.p|
    requires Open(s) && s.shared.ring == [] && Wakes(s.threads, s.sleepers, threads', sleepers')
    requires op' == Put(op.p, op.done + s.cap)
    ensures Looks(Next(s, Pass(t, 0)), s.cap, s.cap, threads'[t := Asleep(op')], sleepers' + [t])
  {
    assert PutCount(s.shared, s.cap, op.p[op.done..]) == s.cap;
    var s1 := Stow(s, t, op, s.cap);
    SignalWakes(s1, threads', sleepers');
    var s2 := PutSome(s, t, 0, s.cap);
    assert s2 == s1.(threads := threads', sleepers := sleepers');
    assert Next(s, Pass(t, 0)) == PutEnd(s2, t, op', true);
  }

  /** A read that finds the ring empty. */
  lemma TakeSleeps<T(!new)>(cap: nat, producers: nat, consumers: nat, t: nat, op: Op<T>,
                            threads: seq<Thread<T>>, sleepers: seq<nat>)
    requires 0 < cap && CanLook(cap, producers, consumers, 0, threads, sleepers)
    requires t < |threads| && threads[t] == Ready(op) && op.Take?
    ensures CanLook(cap, producers, consumers, 0, threads[t := Asleep(op)], sleepers + [t])
  {
    var s: State<T> :| Reached(cap, producers, consumers, s) && Looks(s, cap, 0, threads, sleepers);
    ReachedConserves(cap, producers, consumers, s);
    assert Next(s, Pass(t, 0)) == Sleep(s, t, op);
    LookFollows(cap, producers, consumers, s, Pass(t, 0), 0, threads[t := Asleep(op)], sleepers + [t]);
  }

  /** A read that drains the full ring and wakes the longest sleeper. */
  lemma TakeDrains<T(!new)>(cap: nat, producers: nat, consumers: nat, t: nat,
                            threads: seq<Thread<T>>, sleepers: seq<nat>, threads': seq<Thread<T>>, sleepers': seq<nat>)
    requires 0 < cap && CanLook(cap, producers, consumers, cap, threads, sleepers)
    requires t < |threads| && threads[t] == Ready(Take(cap)) && Wakes(threads, sleepers, threads', sleepers')
    ensures CanLook(cap, producers, consumers, 0, threads'[t := Idle], sleepers')
  {
    var s: State<T> :| Reached(cap, producers, consumers, s) && Looks(s, cap, cap, threads, sleepers);
    ReachedConserves(cap, producers, consumers, s);
    var s1 := s.(shared := s.shared.(ring := s.shared.ring[cap..]),
                 consumed := s.consumed + Tag(t, s.shared.ring[..cap]));
    SignalWakes(s1, threads', sleepers');
    assert Next(s, Pass(t, 0)) == Return(Signal(s1, 0), t, []);
    LookFollows(cap, producers, consumers, s, Pass(t, 0), 0, threads'[t := Idle], sleepers');
  }

  /** No call is under way, and with three threads all of them sleep. */
  ghost predicate Quiet<T>(threads: seq<Thread<T>>) {
    forall u :: 0 <= u < |threads| ==> !threads[u].Ready? && (|threads| == 3 ==> threads[u].Asleep?)
  }

  /** A look that is wedged. */
  lemma LookWedges<T(!new)>(cap: nat, producers: nat, consumers: nat, held: nat,
                            threads: seq<Thread<T>>, sleepers: seq<nat>, t: nat)
    requires 0 < cap && CanLook(cap, producers, consumers, held, threads, sleepers)
    requires Quiet(threads) && |threads| == producers + consumers
    requires t < |threads| && threads[t].Asleep?
    requires if threads[t].op.Put? then held != cap else held != 0
    ensures Wedges<T>(cap, producers, consumers)
  {
    var s: State<T> :| Reached(cap, producers, consumers, s) && Looks(s, cap, held, threads, sleepers);
    assert !MustWait(s, s.threads[t].op);
    assert Wedged(s);
    assert producers + consumers == 3 ==> Deadlocked(s);
  }

  /** A thread calls and sleeps at once: a write on a full ring, a read on an empty one. */
  lemma PutCallSleeps<T(!new)>(cap: nat, producers: nat, consumers: nat, t: nat, op: Op<T>,
                               threads: seq<Thread<T>>, sleepers: seq<nat>)
    requires 0 < cap && CanLook(cap, producers, consumers, cap, threads, sleepers)
    requires t < |threads| && threads[t] == Idle && t < producers && op.Put? && op.done == 0 && op.p != []
    ensures CanLook(cap, producers, consumers, cap, threads[t := Asleep(op)], sleepers + [t])
  {
    Calls(cap, producers, consumers, t, op, cap, threads, sleepers);
    var th := threads[t := Ready(op)];
    PutSleeps(cap, producers, consumers, t, op, th, sleepers);
    assert th[t := Asleep(op)] == threads[t := Asleep(op)];
  }

  lemma TakeCallSleeps<T(!new)>(cap: nat, producers: nat, consumers: nat, t: nat, op: Op<T>,
                                threads: seq<Thread<T>>, sleepers: seq<nat>)
    requires 0 < cap && CanLook(cap, producers, consumers, 0, threads, sleepers)
    requires t < |threads| && threads[t] == Idle && producers <= t && op.Take?
    ensures CanLook(cap, producers, consumers, 0, threads[t := Asleep(op)], sleepers + [t])
  {
    Calls(cap, producers, consumers, t, op, 0, threads, sleepers);
    var th := threads[t := Ready(op)];
    TakeSleeps(cap, producers, consumers, t, op, th, sleepers);
    assert th[t := Asleep(op)] == threads[t := Asleep(op)];
  }

  /** Two writers and a reader. Both writers sleep on the full ring; a read drains it and
      wakes the first writer only; the reader then sleeps, and the first writer's Signal
      goes to the second writer, which finds the ring full again. Now all three sleep, the
      reader in front of a full ring. */
  lemma TwoWritersWedge<T(!new)>(cap: nat, producers: nat, consumers: nat, x: T)
    requires 0 < cap && 2 <= producers && 1 <= consumers
    ensures Wedges<T>(cap, producers, consumers)
  {
    var w := seq(3 * cap, _ => x);
    var a0, a1 := Put(w, 0), Put(w, cap);
    var th: seq<Thread<T>> := seq(producers + consumers, _ => Idle);
    StartLooks<T>(cap, producers, consumers);
    Calls(cap, producers, consumers, 0, a0, 0, th, []);
    var th1 := th[0 := Ready(a0)];
    PutFills(cap, producers, consumers, 0, a0, a1, th1, [], th1, []);
    assert [] + [0] == [0];
    TwoWritersNext(cap, producers, consumers, th1[0 := Asleep(a1)], w);
  }

  lemma TwoWritersNext<T(!new)>(cap: nat, producers: nat, consumers: nat, th: seq<Thread<T>>, w: seq<T>)
    requires 0 < cap && 2 <= producers && 1 <= consumers && |w| == 3 * cap
    requires CanLook(cap, producers, consumers, cap, th, [0])
    requires |th| == producers + consumers && th[0] == Asleep(Put(w, cap))
    requires forall t :: 1 <= t < |th| ==> th[t] == Idle
    ensures Wedges<T>(cap, producers, consumers)
  {
    PutCallSleeps(cap, producers, consumers, 1, Put(w, 0), th, [0]);
    assert [0] + [1] == [0, 1];
    TwoWritersRead(cap, producers, consumers, th[1 := Asleep(Put(w, 0))], w);
  }

  lemma TwoWritersRead<T(!new)>(cap: nat, producers: nat, consumers: nat, th: seq<Thread<T>>, w: seq<T>)
    requires 0 < cap && 2 <= producers && 1 <= consumers && |w| == 3 * cap
    requires CanLook(cap, producers, consumers, cap, th, [0, 1])
    requires |th| == producers + consumers && th[0] == Asleep(Put(w, cap)) && th[1] == Asleep(Put(w, 0))
    requires forall t :: 2 <= t < |th| ==> th[t] == Idle
    ensures Wedges<T>(cap, producers, consumers)
  {
    var c, a1 := producers, Put(w, cap);
    var b: Op<T> := Take(cap);
    Calls(cap, producers, consumers, c, b, cap, th, [0, 1]);
    var th1 := th[c := Ready(b)];
    var th2 := th1[0 := Ready(a1)];
    assert [0, 1][1..] == [1];
    TakeDrains(cap, producers, consumers, c, th1, [0, 1], th2, [1]);
    assert th2[c := Idle] == th[0 := Ready(a1)];
    TwoWritersAgain(cap, producers, consumers, th[0 := Ready(a1)], w);
  }

  lemma TwoWritersAgain<T(!new)>(cap: nat, producers: nat, consumers: nat, th: seq<Thread<T>>, w: seq<T>)
    requires 0 < cap && 2 <= producers && 1 <= consumers && |w| == 3 * cap
    requires CanLook(cap, producers, consumers, 0, th, [1])
    requires |th| == producers + consumers && th[0] == Ready(Put(w, cap)) && th[1] == Asleep(Put(w, 0))
    requires forall t :: 2 <= t < |th| ==> th[t] == Idle
    ensures Wedges<T>(cap, producers, consumers)
  {
    TakeCallSleeps(cap, producers, consumers, producers, Take(cap), th, [1]);
    assert [1] + [producers] == [1, producers];
    TwoWritersFill(cap, producers, consumers, th[producers := Asleep(Take(cap))], w);
  }

  lemma TwoWritersFill<T(!new)>(cap: nat, producers: nat, consumers: nat, th: seq<Thread<T>>, w: seq<T>)
    requires 0 < cap && 2 <= producers && 1 <= consumers && |w| == 3 * cap
    requires CanLook(cap, producers, consumers, 0, th, [1, producers])
    requires |th| == producers + consumers && th[0] == Ready(Put(w, cap)) && th[1] == Asleep(Put(w, 0))
    requires forall t :: 2 <= t < |th| ==> th[t] == if t == producers then Asleep(Take(cap)) else Idle
    ensures Wedges<T>(cap, producers, consumers)
  {
    var c, a0, a1, a2 := producers, Put(w, 0), Put(w, cap), Put(w, 2 * cap);
    var th1 := th[1 := Ready(a0)];
    assert [1, c][1..] == [c];
    PutFills(cap, producers, consumers, 0, a1, a2, th, [1, c], th1, [c]);
    assert [c] + [0] == [c, 0];
    TwoWritersEnd(cap, producers, consumers, th1[0 := Asleep(a2)], w);
  }

  lemma QuietWriters<T>(th: seq<Thread<T>>, c: nat)
    requires 2 <= c < |th| && th[0].Asleep? && th[1].Asleep? && th[c].Asleep?
    requires forall t :: 2 <= t < |th| && t != c ==> th[t] == Idle
    ensures Quiet(th)
  {
  }

  lemma TwoWritersEnd<T(!new)>(cap: nat, producers: nat, consumers: nat, th: seq<Thread<T>>, w: seq<T>)
    requires 0 < cap && 2 <= producers && 1 <= consumers && |w| == 3 * cap
    requires CanLook(cap, producers, consumers, cap, th, [producers, 0])
    requires |th| == producers + consumers && th[0].Asleep? && th[1] == Ready(Put(w, 0))
    requires forall t :: 2 <= t < |th| ==> th[t] == if t == producers then Asleep(Take(cap)) else Idle
    ensures Wedges<T>(cap, producers, consumers)
  {
    var a0 := Put(w, 0);
    PutSleeps(cap, producers, consumers, 1, a0, th, [producers, 0]);
    QuietWriters(th[1 := Asleep(a0)], producers);
    LookWedges(cap, producers, consumers, cap, th[1 := Asleep(a0)], [producers, 0] + [1], producers);
  }

  /** One writer and two readers. Both readers sleep on the empty ring; a write fills it,
      wakes the first reader only and sleeps with more to write; the first reader drains
      the ring and its Signal goes to the second reader, which finds the ring empty, as does
      the first when it reads again. Now all three sleep, the writer in front of an empty ring. */
  lemma TwoReadersWedge<T(!new)>(cap: nat, producers: nat, consumers: nat, x: T)
    requires 0 < cap && 1 <= producers && 2 <= consumers
    ensures Wedges<T>(cap, producers, consumers)
  {
    var c, d := producers, producers + 1;
    var b: Op<T> := Take(cap);
    var th: seq<Thread<T>> := seq(producers + consumers, _ => Idle);
    StartLooks<T>(cap, producers, consumers);
    TakeCallSleeps(cap, producers, consumers, c, b, th, []);
    assert [] + [c] == [c];
    var th1 := th[c := Asleep(b)];
    TakeCallSleeps(cap, producers, consumers, d, b, th1, [c]);
    assert [c] + [d] == [c, d];
    TwoReadersWrite(cap, producers, consumers, th1[d := Asleep(b)], seq(2 * cap, _ => x));
  }

  lemma TwoReadersWrite<T(!new)>(cap: nat, producers: nat, consumers: nat, th: seq<Thread<T>>, w: seq<T>)
    requires 0 < cap && 1 <= producers && 2 <= consumers && |w| == 2 * cap
    requires CanLook(cap, producers, consumers, 0, th, [producers, producers + 1])
    requires |th| == producers + consumers && th[producers] == th[producers + 1] == Asleep(Take(cap))
    requires forall t :: 0 <= t < |th| && t != producers && t != producers + 1 ==> th[t] == Idle
    ensures Wedges<T>(cap, producers, consumers)
  {
    var c, d, a0, a1 := producers, producers + 1, Put(w, 0), Put(w, cap);
    Calls(cap, producers, consumers, 0, a0, 0, th, [c, d]);
    var th1 := th[0 := Ready(a0)];
    var th2 := th1[c := Ready(Take(cap))];
    assert [c, d][1..] == [d];
    PutFills(cap, producers, consumers, 0, a0, a1, th1, [c, d], th2, [d]);
    assert [d] + [0] == [d, 0];
    TwoReadersRead(cap, producers, consumers, th2[0 := Asleep(a1)], w);
  }

  lemma TwoReadersRead<T(!new)>(cap: nat, producers: nat, consumers: nat, th: seq<Thread<T>>, w: seq<T>)
    requires 0 < cap && 1 <= producers && 2 <= consumers && |w| == 2 * cap
    requires CanLook(cap, producers, consumers, cap, th, [producers + 1, 0])
    requires |th| == producers + consumers && th[0] == Asleep(Put(w, cap))
    requires th[producers] == Ready(Take(cap)) && th[producers + 1] == Asleep(Take(cap))
    requires forall t :: 1 <= t < |th| && t != producers && t != producers + 1 ==> th[t] == Idle
    ensures Wedges<T>(cap, producers, consumers)
  {
    var th' := th[producers + 1 := Ready(Take(cap))][producers := Idle];
    FirstReads(cap, producers, consumers, th);
    ReaderIdles(th, producers, producers + 1, th', cap);
    TwoReadersEnd(cap, producers, consumers, th', w);
  }

  lemma FirstReads<T(!new)>(cap: nat, producers: nat, consumers: nat, th: seq<Thread<T>>)
    requires 0 < cap && producers + 1 < |th| && CanLook(cap, producers, consumers, cap, th, [producers + 1, 0])
    requires th[producers] == Ready(Take(cap)) && th[producers + 1] == Asleep(Take(cap))
    ensures CanLook(cap, producers, consumers, 0, th[producers + 1 := Ready(Take(cap))][producers := Idle], [0])
  {
    var c, d := producers, producers + 1;
    assert [d, 0][1..] == [0];
    TakeDrains(cap, producers, consumers, c, th, [d, 0], th[d := Ready(Take(cap))], [0]);
  }

  lemma ReaderIdles<T>(th: seq<Thread<T>>, c: nat, d: nat, th': seq<Thread<T>>, cap: nat)
    requires 1 <= c < |th| && d == c + 1 < |th| && th' == th[d := Ready(Take(cap))][c := Idle]
    requires forall t :: 1 <= t < |th| && t != c && t != d ==> th[t] == Idle
    ensures th'[0] == th[0] && th'[d] == Ready(Take(cap)) && forall t :: 1 <= t < |th'| && t != d ==> th'[t] == Idle
  {
  }

  lemma TwoReadersEnd<T(!new)>(cap: nat, producers: nat, consumers: nat, th: seq<Thread<T>>, w: seq<T>)
    requires 0 < cap && 1 <= producers && 2 <= consumers && |w| == 2 * cap
    requires CanLook(cap, producers, consumers, 0, th, [0])
    requires |th| == producers + consumers && th[0] == Asleep(Put(w, cap)) && th[producers + 1] == Ready(Take(cap))
    requires forall t :: 1 <= t < |th| && t != producers + 1 ==> th[t] == Idle
    ensures Wedges<T>(cap, producers, consumers)
  {
    var d := producers + 1;
    TakeSleeps(cap, producers, consumers, d, Take(cap), th, [0]);
    TwoReadersLast(cap, producers, consumers, th[d := Asleep(Take(cap))], [0] + [d], w);
  }

  lemma TwoReadersLast<T(!new)>(cap: nat, producers: nat, consumers: nat, th: seq<Thread<T>>, sleepers: seq<nat>, w: seq<T>)
    requires 0 < cap && 1 <= producers && 2 <= consumers
    requires CanLook(cap, producers, consumers, 0, th, sleepers)
    requires |th| == producers + consumers && th[0] == Asleep(Put(w, cap)) && th[producers + 1].Asleep?
    requires forall t :: 1 <= t < |th| && t != producers + 1 ==> th[t] == Idle
    ensures Wedges<T>(cap, producers, consumers)
  {
    var c := producers;
    TakeCallSleeps(cap, producers, consumers, c, Take(cap), th, sleepers);
    LastLookWedges(cap, producers, consumers, th[c := Asleep(Take(cap))], sleepers + [c], w);
  }

  lemma QuietReaders<T>(th: seq<Thread<T>>, c: nat)
    requires 1 <= c && c + 1 < |th| && th[0].Asleep? && th[c].Asleep? && th[c + 1].Asleep?
    requires forall t :: 1 <= t < |th| && t != c && t != c + 1 ==> th[t] == Idle
    ensures Quiet(th)
  {
  }

  lemma LastLookWedges<T(!new)>(cap: nat, producers: nat, consumers: nat, th: seq<Thread<T>>, sleepers: seq<nat>, w: seq<T>)
    requires 0 < cap && 1 <= producers && 2 <= consumers && CanLook(cap, producers, consumers, 0, th, sleepers)
    requires |th| == producers + consumers && th[0] == Asleep(Put(w, cap))
    requires th[producers].Asleep? && th[producers + 1].Asleep?
    requires forall t :: 1 <= t < |th| && t != producers && t != producers + 1 ==> th[t] == Idle
    ensures Wedges<T>(cap, producers, consumers)
  {
    QuietReaders(th, producers);
    LookWedges(cap, producers, consumers, 0, th, sleepers, 0);
  }

  /** One condition variable with single wake-ups is exact about its clients: a run can
      wedge, for every capacity and even with first-in-first-out wake-ups, if and only if
      both kinds of thread exist and there are at least three threads. */
  lemma WedgesIff<T(!new)>(cap: nat, producers: nat, consumers: nat, x: T)
    requires 0 < cap
    ensures CanWedge<T>(cap, producers, consumers) <==> !Paired(producers, consumers)
  {
    if Paired(producers, consumers) {
      forall s: State<T> | Reached(cap, producers, consumers, s) ensures !Wedged(s) {
        var es :| RunsAs(producers, Init<T>(cap, producers + consumers), es, s) && Fifo(es);
        PairedRunNeverLoses(cap, producers, consumers, es, s);
      }
    } else if producers >= 2 {
      TwoWritersWedge(cap, producers, consumers, x);
    } else {
      TwoReadersWedge(cap, producers, consumers, x);
    }
  }

  /** With three threads the same pairs exactly decide whether all of them can end up asleep for
      good, until someone closes the ring. */
  lemma ThreeDeadlockIff<T(!new)>(cap: nat, producers: nat, consumers: nat, x: T)
    requires 0 < cap && producers + consumers == 3
    ensures CanDeadlock<T>(cap, producers, consumers) <==> !Paired(producers, consumers)
  {
    if Paired(producers, consumers) {
      forall s: State<T> | Reached(cap, producers, consumers, s) ensures !Deadlocked(s) {
        var es :| RunsAs(producers, Init<T>(cap, producers + consumers), es, s) && Fifo(es);
        PairedRunNeverLoses(cap, producers, consumers, es, s);
      }
    } else if producers >= 2 {
      TwoWritersWedge(cap, producers, consumers, x);
    } else {
      TwoReadersWedge(cap, producers, consumers, x);
    }
  }
}
