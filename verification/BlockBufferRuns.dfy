/** Any number of goroutines on one blocking ring (pkgs/buffer/block_buffer.go), as
    interleaved passes. `sync.Cond` is a queue of sleeping threads: Signal wakes one of
    them, Broadcast all of them. A safety claim holds for every choice Signal makes; a
    bad run picks the longest sleeper, as the Go runtime does. */
module BlockBufferRuns {
  import opened BufferTypes
  import opened Options
  import opened BlockBuffers

  /** A call in progress: Write or Add (`Put`, with the prefix stored so far), or Read or
      Next (`Take`). */
  datatype Op<T> = Put(p: seq<T>, done: nat) | Take(max: nat)

  datatype Thread<T> = Idle | Ready(op: Op<T>) | Asleep(op: Op<T>)

  /** `stored` and `consumed` log every element with the thread that moved it, and
      `returned[t]` joins the prefixes that the finished writes of thread `t` reported. */
  datatype State<T> = State(
    cap: nat,
    shared: Shared<T>,
    threads: seq<Thread<T>>,
    sleepers: seq<nat>,
    stored: seq<(nat, T)>,
    consumed: seq<(nat, T)>,
    returned: seq<seq<T>>)

  datatype Step<T> =
    | Call(t: nat, op: Op<T>)
    | Pass(t: nat, pick: nat)   // thread t makes a pass; a Signal wakes sleeper number `pick`
    | CloseWrite
    | CloseWithError(cause: Cause)

  function Init<T>(cap: nat, threads: nat): (s: State<T>)
  {
    State(cap, Shared([], false, None), seq(threads, _ => Idle), [], [], [], seq(threads, _ => []))
  }

  predicate Enabled<T>(s: State<T>, e: Step<T>) {
    match e
    case Call(t, op) => t < |s.threads| && s.threads[t].Idle? && (op.Put? ==> op.done == 0)
    case Pass(t, pick) => t < |s.threads| && s.threads[t].Ready? && (s.sleepers != [] ==> pick < |s.sleepers|)
    case CloseWrite => true
    case CloseWithError(_) => true
  }

  /** The sleepers are the threads asleep, each once. */
  ghost predicate Queue<T>(threads: seq<Thread<T>>, sleepers: seq<nat>) {
    && (forall i :: 0 <= i < |sleepers| ==> sleepers[i] < |threads| && threads[sleepers[i]].Asleep?)
    && (forall i, j :: 0 <= i < j < |sleepers| ==> sleepers[i] != sleepers[j])
    && (forall t :: 0 <= t < |threads| && threads[t].Asleep? ==> t in sleepers)
  }

  predicate Proper<T>(th: Thread<T>) {
    th.Idle? || th.op.Take? || th.op.done <= |th.op.p|
  }

  ghost predicate WellFormed<T>(s: State<T>) {
    && 0 < s.cap && |s.shared.ring| <= s.cap && |s.returned| == |s.threads|
    && Queue(s.threads, s.sleepers)
    && forall t :: 0 <= t < |s.threads| ==> Proper(s.threads[t])
  }

  /** cond.Signal */
  function Signal<T>(s: State<T>, pick: nat): (s': State<T>)
    requires WellFormed(s) && (s.sleepers != [] ==> pick < |s.sleepers|)
  {
    if s.sleepers == [] then s
    else
      var t := s.sleepers[pick];
      s.(threads := s.threads[t := Ready(s.threads[t].op)],
         sleepers := s.sleepers[..pick] + s.sleepers[pick + 1..])
  }

  /** cond.Broadcast */
  function Broadcast<T>(s: State<T>): (s': State<T>)
  {
    s.(threads := seq(|s.threads|, i requires 0 <= i < |s.threads| =>
         if s.threads[i].Asleep? then Ready(s.threads[i].op) else s.threads[i]),
       sleepers := [])
  }

  /** cond.Wait: thread `t` joins the sleepers with what is left of its call. */
  function Sleep<T>(s: State<T>, t: nat, op: Op<T>): (s': State<T>)
    requires t < |s.threads|
  {
    s.(threads := s.threads[t := Asleep(op)], sleepers := s.sleepers + [t])
  }

  /** The call of thread `t` returns, reporting `prefix` stored. */
  function Return<T>(s: State<T>, t: nat, prefix: seq<T>): (s': State<T>)
    requires t < |s.threads| == |s.returned|
  {
    s.(threads := s.threads[t := Idle], returned := s.returned[t := s.returned[t] + prefix])
  }

  function Tag<T>(t: nat, xs: seq<T>): (r: seq<(nat, T)>)
    ensures |r| == |xs| && forall i :: 0 <= i < |xs| ==> r[i] == (t, xs[i])
  {
    seq(|xs|, i requires 0 <= i < |xs| => (t, xs[i]))
  }

  /** Thread `t` puts `n` more elements of `p` in the ring. */
  function Stow<T>(s: State<T>, t: nat, op: Op<T>, n: nat): (s': State<T>)
    requires t < |s.threads| && op.Put? && op.done + n <= |op.p|
  {
    var xs := op.p[op.done..op.done + n];
    s.(shared := s.shared.(ring := s.shared.ring + xs), stored := s.stored + Tag(t, xs))
  }

  /** The part of a pass of Write that moves elements, with its wake-up. */
  function PutSome<T>(s: State<T>, t: nat, pick: nat, n: nat): (s': State<T>)
    requires WellFormed(s) && Enabled(s, Pass(t, pick)) && s.threads[t].op.Put?
    requires s.threads[t].op.done + n <= |s.threads[t].op.p| && |s.shared.ring| + n <= s.cap
  {
    var s1 := Stow(s, t, s.threads[t].op, n);
    if n > 0 then Signal(s1, pick) else s1
  }

  /** The end of a pass of Write: thread `t` goes to sleep or returns. */
  function PutEnd<T>(s: State<T>, t: nat, op: Op<T>, blocks: bool): (s': State<T>)
    requires t < |s.threads| == |s.returned| && op.Put? && op.done <= |op.p|
  {
    if blocks then Sleep(s, t, op) else Return(s, t, op.p[..op.done])
  }

  function PutMoves<T>(s: State<T>, t: nat, pick: nat, op: Op<T>, n: nat, blocks: bool): (s': State<T>)
    requires WellFormed(s) && Enabled(s, Pass(t, pick)) && s.threads[t] == Ready(op) && op.Put?
    requires op.done + n <= |op.p| && |s.shared.ring| + n <= s.cap
  {
    PutEnd(PutSome(s, t, pick, n), t, Put(op.p, op.done + n), blocks)
  }

  function PutPass<T>(s: State<T>, t: nat, pick: nat): (s': State<T>)
    requires WellFormed(s) && Enabled(s, Pass(t, pick)) && s.threads[t].op.Put?
  {
    var op := s.threads[t].op;
    var rest := op.p[op.done..];
    PutMoves(s, t, pick, op, PutCount(s.shared, s.cap, rest), PutOutcome(s.shared, s.cap, rest).Blocks?)
  }

  function TakePass<T>(s: State<T>, t: nat, pick: nat): (s': State<T>)
    requires WellFormed(s) && Enabled(s, Pass(t, pick)) && s.threads[t].op.Take?
  {
    var op := s.threads[t].op;
    var n := TakeCount(s.shared, op.max);
    match TakeOutcome(s.shared, EndOfFile)
    case Blocks => Sleep(s, t, op)
    case Failed(_) => Return(s, t, [])
    case Done(_) =>
      var s1 := s.(shared := s.shared.(ring := s.shared.ring[n..]),
                   consumed := s.consumed + Tag(t, s.shared.ring[..n]));
      Return(Signal(s1, pick), t, [])
  }

  function Next<T>(s: State<T>, e: Step<T>): (s': State<T>)
    requires WellFormed(s) && Enabled(s, e)
  {
    match e
    case Call(t, op) => s.(threads := s.threads[t := Ready(op)])
    case Pass(t, pick) => if s.threads[t].op.Put? then PutPass(s, t, pick) else TakePass(s, t, pick)
    case CloseWrite =>
      if s.shared.closeWrite then s else Broadcast(s.(shared := s.shared.(closeWrite := true)))
    case CloseWithError(c) =>
      if s.shared.closeErr.Some? then s
      else Broadcast(s.(shared := s.shared.(closeWrite := true, closeErr := Some(c))))
  }

  // ---------------------------------------------------------------- conservation

  function Values<T>(log: seq<(nat, T)>): (r: seq<T>)
    ensures |r| == |log| && forall i :: 0 <= i < |log| ==> r[i] == log[i].1
  {
    seq(|log|, i requires 0 <= i < |log| => log[i].1)
  }

  /** What thread `t` moved, in order. */
  function By<T>(log: seq<(nat, T)>, t: nat): (r: seq<T>)
  {
    if log == [] then []
    else By(log[..|log| - 1], t) + if log[|log| - 1].0 == t then [log[|log| - 1].1] else []
  }

  /** The prefix that the call in progress of thread `t` has stored. */
  function InProgress<T>(th: Thread<T>): (r: seq<T>)
  {
    if !th.Idle? && th.op.Put? && Proper(th) then th.op.p[..th.op.done] else []
  }

  /** Nothing is lost, duplicated or reordered. */
  ghost predicate Flow<T>(s: State<T>) {
    Values(s.consumed) + s.shared.ring == Values(s.stored)
  }

  /** Every writer's reports are exact. */
  ghost predicate Reports<T>(s: State<T>) {
    && |s.returned| == |s.threads|
    && forall t :: 0 <= t < |s.threads| ==> By(s.stored, t) == s.returned[t] + InProgress(s.threads[t])
  }

  ghost predicate Conserved<T>(s: State<T>) {
    WellFormed(s) && Flow(s) && Reports(s)
  }

  lemma {:induction false} ByAppend<T>(log: seq<(nat, T)>, t: nat, xs: seq<T>, u: nat)
    ensures By(log + Tag(t, xs), u) == By(log, u) + if u == t then xs else []
  {
    var all := log + Tag(t, xs);
    if xs == [] {
      assert all == log;
    } else {
      var ys := xs[..|xs| - 1];
      assert all[..|all| - 1] == log + Tag(t, ys);
      ByAppend(log, t, ys, u);
      assert ys + [xs[|xs| - 1]] == xs;
    }
  }

  lemma QueueWake<T>(threads: seq<Thread<T>>, sleepers: seq<nat>, pick: nat)
    requires Queue(threads, sleepers) && pick < |sleepers|
    ensures var t := sleepers[pick];
      Queue(threads[t := Ready(threads[t].op)], sleepers[..pick] + sleepers[pick + 1..])
  {
    var t := sleepers[pick];
    var threads', sleepers' := threads[t := Ready(threads[t].op)], sleepers[..pick] + sleepers[pick + 1..];
    forall u | 0 <= u < |threads'| && threads'[u].Asleep? ensures u in sleepers' {
      var i :| 0 <= i < |sleepers| && sleepers[i] == u;
      assert u == sleepers'[if i < pick then i else i - 1];
    }
  }

  lemma QueueJoin<T>(threads: seq<Thread<T>>, sleepers: seq<nat>, t: nat, op: Op<T>)
    requires Queue(threads, sleepers) && t < |threads| && !threads[t].Asleep?
    ensures Queue(threads[t := Asleep(op)], sleepers + [t])
  {
    var threads', sleepers' := threads[t := Asleep(op)], sleepers + [t];
    forall u | 0 <= u < |threads'| && threads'[u].Asleep? ensures u in sleepers' {
      if u == t {
        assert sleepers'[|sleepers|] == t;
      } else {
        var i :| 0 <= i < |sleepers| && sleepers[i] == u;
        assert sleepers'[i] == u;
      }
    }
  }

  /** A wake-up changes no more than who sleeps. */
  lemma SignalKeeps<T>(s: State<T>, pick: nat)
    requires WellFormed(s) && (s.sleepers != [] ==> pick < |s.sleepers|)
    ensures var s' := Signal(s, pick);
      && WellFormed(s') && s' == s.(threads := s'.threads, sleepers := s'.sleepers)
      && |s'.threads| == |s.threads|
      && forall t :: 0 <= t < |s.threads| ==>
        && InProgress(s'.threads[t]) == InProgress(s.threads[t])
        && (!s.threads[t].Asleep? ==> s'.threads[t] == s.threads[t])
  {
    if s.sleepers != [] {
      QueueWake(s.threads, s.sleepers, pick);
    }
  }

  /** Inside a pass of thread `t`: all is conserved, once the call in progress of `t` is
      taken to have stored `p`. */
  ghost predicate Owes<T>(s: State<T>, t: nat, p: seq<T>) {
    && WellFormed(s) && Flow(s)
    && t < |s.threads| && s.threads[t].Ready?
    && By(s.stored, t) == s.returned[t] + p
    && forall u :: 0 <= u < |s.threads| && u != t ==> By(s.stored, u) == s.returned[u] + InProgress(s.threads[u])
  }

  lemma SignalOwes<T>(s: State<T>, t: nat, p: seq<T>, pick: nat)
    requires Owes(s, t, p) && (s.sleepers != [] ==> pick < |s.sleepers|)
    ensures Owes(Signal(s, pick), t, p)
  {
    SignalKeeps(s, pick);
  }

  lemma SleepConserves<T>(s: State<T>, t: nat, op: Op<T>)
    requires Proper(Asleep(op)) && Owes(s, t, InProgress(Asleep(op)))
    ensures Conserved(Sleep(s, t, op))
  {
    QueueJoin(s.threads, s.sleepers, t, op);
  }

  lemma ReturnConserves<T>(s: State<T>, t: nat, p: seq<T>)
    requires Owes(s, t, p)
    ensures Conserved(Return(s, t, p))
  {
    var s' := Return(s, t, p);
    assert s'.returned[t] + InProgress(s'.threads[t]) == s.returned[t] + p;
    assert Queue(s'.threads, s'.sleepers);
  }

  lemma StowFlows<T>(s: State<T>, t: nat, n: nat)
    requires Conserved(s) && t < |s.threads| && s.threads[t].Ready? && s.threads[t].op.Put?
    requires s.threads[t].op.done + n <= |s.threads[t].op.p| && |s.shared.ring| + n <= s.cap
    ensures var s' := Stow(s, t, s.threads[t].op, n); WellFormed(s') && Flow(s')
  {
    var op := s.threads[t].op;
    FlowAfterPut(Values(s.consumed), s.shared.ring, s.stored, t, op.p[op.done..op.done + n]);
  }

  lemma StowReports<T>(s: State<T>, t: nat, op: Op<T>, n: nat, u: nat)
    requires Reports(s) && t < |s.threads| && u < |s.threads| && s.threads[t] == Ready(op) && op.Put?
    requires op.done + n <= |op.p|
    ensures By(Stow(s, t, op, n).stored, u) == s.returned[u] + if u == t then op.p[..op.done + n] else InProgress(s.threads[u])
  {
    ByAppend(s.stored, t, op.p[op.done..op.done + n], u);
    assert By(s.stored, u) == s.returned[u] + InProgress(s.threads[u]);
    PrefixGrows(s.returned[u], op.p, op.done, n);
  }

  lemma PrefixGrows<T>(r: seq<T>, p: seq<T>, d: nat, n: nat)
    requires d + n <= |p|
    ensures r + p[..d] + p[d..d + n] == r + p[..d + n]
  {
    assert p[..d] + p[d..d + n] == p[..d + n];
  }

  lemma StowOwes<T>(s: State<T>, t: nat, n: nat)
    requires Conserved(s) && t < |s.threads| && s.threads[t].Ready? && s.threads[t].op.Put?
    requires s.threads[t].op.done + n <= |s.threads[t].op.p| && |s.shared.ring| + n <= s.cap
    ensures Owes(Stow(s, t, s.threads[t].op, n), t, s.threads[t].op.p[..s.threads[t].op.done + n])
  {
    StowFlows(s, t, n);
    forall u | 0 <= u < |s.threads|
      ensures By(Stow(s, t, s.threads[t].op, n).stored, u) ==
              s.returned[u] + if u == t then s.threads[t].op.p[..s.threads[t].op.done + n] else InProgress(s.threads[u])
    {
      StowReports(s, t, s.threads[t].op, n, u);
    }
  }

  lemma FlowAfterPut<T>(consumed: seq<T>, ring: seq<T>, stored: seq<(nat, T)>, t: nat, xs: seq<T>)
    requires consumed + ring == Values(stored)
    ensures consumed + (ring + xs) == Values(stored + Tag(t, xs))
  {
    assert consumed + (ring + xs) == Values(stored) + xs;
  }

  lemma FlowAfterTake<T>(consumed: seq<(nat, T)>, ring: seq<T>, stored: seq<T>, t: nat, n: nat)
    requires n <= |ring| && Values(consumed) + ring == stored
    ensures Values(consumed + Tag(t, ring[..n])) + ring[n..] == stored
  {
    assert Values(consumed + Tag(t, ring[..n])) == Values(consumed) + ring[..n];
  }

  lemma PutSomeOwes<T>(s: State<T>, t: nat, pick: nat, n: nat)
    requires Conserved(s) && Enabled(s, Pass(t, pick)) && s.threads[t].op.Put?
    requires s.threads[t].op.done + n <= |s.threads[t].op.p| && |s.shared.ring| + n <= s.cap
    ensures Owes(PutSome(s, t, pick, n), t, s.threads[t].op.p[..s.threads[t].op.done + n])
  {
    StowOwes(s, t, n);
    if n > 0 {
      SignalOwes(Stow(s, t, s.threads[t].op, n), t, s.threads[t].op.p[..s.threads[t].op.done + n], pick);
    }
  }

  lemma PutEndConserves<T>(s: State<T>, t: nat, op: Op<T>, blocks: bool)
    requires op.Put? && op.done <= |op.p| && Owes(s, t, op.p[..op.done])
    ensures Conserved(PutEnd(s, t, op, blocks))
  {
    if blocks {
      SleepConserves(s, t, op);
    } else {
      ReturnConserves(s, t, op.p[..op.done]);
    }
  }

  /** Moving `n` elements and then sleeping or returning conserves, whichever it is. */
  lemma PutMovesConserve<T>(s: State<T>, t: nat, pick: nat, op: Op<T>, n: nat, blocks: bool)
    requires Conserved(s) && Enabled(s, Pass(t, pick)) && s.threads[t] == Ready(op) && op.Put?
    requires op.done + n <= |op.p| && |s.shared.ring| + n <= s.cap
    ensures Conserved(PutMoves(s, t, pick, op, n, blocks))
  {
    PutSomeOwes(s, t, pick, n);
    PutEndConserves(PutSome(s, t, pick, n), t, Put(op.p, op.done + n), blocks);
  }

  lemma PutPassConserves<T>(s: State<T>, t: nat, pick: nat)
    requires Conserved(s) && Enabled(s, Pass(t, pick)) && s.threads[t].op.Put?
    ensures Conserved(PutPass(s, t, pick))
  {
    var op := s.threads[t].op;
    var rest := op.p[op.done..];
    PutMovesConserve(s, t, pick, op, PutCount(s.shared, s.cap, rest), PutOutcome(s.shared, s.cap, rest).Blocks?);
  }

  lemma TakePassConserves<T>(s: State<T>, t: nat, pick: nat)
    requires Conserved(s) && Enabled(s, Pass(t, pick)) && s.threads[t].op.Take?
    ensures Conserved(TakePass(s, t, pick))
  {
    var op := s.threads[t].op;
    var n := TakeCount(s.shared, op.max);
    assert Owes(s, t, []);
    match TakeOutcome(s.shared, EndOfFile)
    case Blocks => SleepConserves(s, t, op);
    case Failed(_) => ReturnConserves(s, t, []);
    case Done(_) =>
      var s1 := s.(shared := s.shared.(ring := s.shared.ring[n..]),
                   consumed := s.consumed + Tag(t, s.shared.ring[..n]));
      FlowAfterTake(s.consumed, s.shared.ring, Values(s.stored), t, n);
      SignalOwes(s1, t, [], pick);
      ReturnConserves(Signal(s1, pick), t, []);
  }

  lemma StepConserves<T>(s: State<T>, e: Step<T>)
    requires Conserved(s) && Enabled(s, e)
    ensures Conserved(Next(s, e))
  {
    match e
    case Call(t, op) =>
    case Pass(t, pick) =>
      if s.threads[t].op.Put? {
        PutPassConserves(s, t, pick);
      } else {
        TakePassConserves(s, t, pick);
      }
    case CloseWrite =>
    case CloseWithError(_) =>
  }

  lemma InitConserved<T>(cap: nat, threads: nat)
    requires 0 < cap
    ensures Conserved(Init<T>(cap, threads))
  {
    var s := Init<T>(cap, threads);
    assert Values(s.consumed) == [] == Values(s.stored);
  }

  // ------------------------------------------------------------------------ runs

  ghost predicate Steps<T>(s: State<T>, e: Step<T>, s': State<T>) {
    WellFormed(s) && Enabled(s, e) && Next(s, e) == s'
  }

  /** A run: its steps are enabled one after the other. */
  ghost predicate Runs<T(!new)>(s: State<T>, es: seq<Step<T>>, s': State<T>)
    decreases |es|
  {
    if es == [] then s == s'
    else
      var pre, e := es[..|es| - 1], es[|es| - 1];
      exists m :: Runs(s, pre, m) && Steps(m, e, s')
  }

  lemma StepSizes<T>(s: State<T>, e: Step<T>)
    requires WellFormed(s) && Enabled(s, e)
    ensures Next(s, e).cap == s.cap && |Next(s, e).threads| == |s.threads|
  {
  }

  /** Over every interleaving of any number of readers and writers: what was consumed
      followed by what the ring holds is everything ever stored, in storage order; what a
      thread stored is exactly the prefixes it reported and its call in progress; and the
      ring is never over its capacity. */
  lemma {:induction false} RunConserves<T(!new)>(cap: nat, threads: nat, es: seq<Step<T>>, s: State<T>)
    requires 0 < cap && Runs(Init(cap, threads), es, s)
    ensures Conserved(s) && s.cap == cap && |s.threads| == threads && |s.shared.ring| <= cap
  {
    if es == [] {
      InitConserved<T>(cap, threads);
    } else {
      var pre, e := es[..|es| - 1], es[|es| - 1];
      var m :| Runs(Init(cap, threads), pre, m) && Steps(m, e, s);
      RunConserves(cap, threads, pre, m);
      StepConserves(m, e);
      StepSizes(m, e);
    }
  }
}
