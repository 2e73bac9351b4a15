/** Producers, consumers, removers and closers on one growable queue
    (pkgs/buffer/buffer.go), as interleaved critical sections. A consumer that finds the
    queue empty gives up the lock and then waits for the one-slot channel. */
module BufferRuns {
  import opened BufferTypes
  import opened Collections
  import opened Options
  import opened Buffers

  datatype Consumer = Idle | AtLock | Waiting

  /** `added` lists every element ever stored, so that the element with ID i is added[i - 1].
      `pending` is the input of a Write that has left its token but not yet appended; the
      lock is held meanwhile. */
  datatype State<T> = State(
    buf: seq<T>, ids: seq<nat>, added: seq<T>,
    closeWrite: bool, closeErr: Option<Cause>,
    token: bool, notifyClosed: bool,
    consumers: seq<Consumer>, pending: Option<seq<T>>)

  datatype Step<T> =
    | Call(c: nat)                 // a consumer starts Read or Next
    | Enter(c: nat, max: nat)      // it makes a pass under the lock
    | Receive(c: nat)              // it gets past the channel
    | Add(x: T)
    | WriteNotify(p: seq<T>)
    | WriteAppend
    | Drop(n: nat)                 // Discard or Reset
    | Sweep(doomed: set<nat>)      // the second half of RemoveIf
    | CloseWrite
    | CloseWithError(cause: Cause)

  function Init<T>(consumers: nat): (s: State<T>) {
    State([], [], [], false, None, false, false, seq(consumers, _ => Idle), None)
  }

  predicate Enabled<T>(s: State<T>, e: Step<T>) {
    match e
    case Call(c) => c < |s.consumers| && s.consumers[c].Idle?
    case Enter(c, _) => s.pending.None? && c < |s.consumers| && s.consumers[c].AtLock?
    case Receive(c) => c < |s.consumers| && s.consumers[c].Waiting? && (s.token || s.notifyClosed)
    case WriteAppend => s.pending.Some?
    case _ => s.pending.None?
  }

  ghost predicate Good<T>(s: State<T>) {
    && |s.buf| == |s.ids| && Ascending(s.ids)
    && (forall i :: 0 <= i < |s.ids| ==> 0 < s.ids[i] <= |s.added| && s.added[s.ids[i] - 1] == s.buf[i])
    && s.notifyClosed == s.closeWrite && (s.closeErr.Some? ==> s.closeWrite)
    && (s.pending.Some? ==> !s.closeWrite)
  }

  function Append<T>(s: State<T>, p: seq<T>): (s': State<T>) {
    s.(buf := s.buf + p, ids := s.ids + FreshIds(|s.added|, |p|), added := s.added + p)
  }

  function Front<T>(s: State<T>, n: nat): (s': State<T>)
    requires |s.buf| == |s.ids|
  {
    if n > |s.buf| then s.(buf := [], ids := []) else s.(buf := s.buf[n..], ids := s.ids[n..])
  }

  function Become<T>(s: State<T>, c: nat, ph: Consumer): (s': State<T>)
    requires c < |s.consumers|
  {
    s.(consumers := s.consumers[c := ph])
  }

  function Next<T>(s: State<T>, e: Step<T>): (s': State<T>)
    requires |s.buf| == |s.ids| && Enabled(s, e)
  {
    match e
    case Call(c) => Become(s, c, AtLock)
    case Enter(c, max) =>
      if s.closeErr.Some? then Become(s, c, Idle)
      else if s.buf != [] then Become(Front(s, if max <= |s.buf| then max else |s.buf|), c, Idle)
      else if s.closeWrite then Become(s, c, Idle)
      else Become(s, c, Waiting)
    case Receive(c) => Become(s.(token := false), c, AtLock)
    case Add(x) => if s.closeWrite then s else Append(s, [x]).(token := true)
    case WriteNotify(p) => if s.closeWrite then s else s.(token := true, pending := Some(p))
    case WriteAppend => Append(s, s.pending.value).(pending := None)
    case Drop(n) => Front(s, n)
    case Sweep(doomed) => s.(buf := KeptValues(s.buf, s.ids, doomed), ids := KeptIds(s.ids, doomed))
    case CloseWrite => s.(closeWrite := true, notifyClosed := true)
    case CloseWithError(c) =>
      if s.closeErr.Some? then s
      else s.(closeErr := Some(c), buf := [], ids := [], closeWrite := true, notifyClosed := true)
  }

  ghost predicate Runs<T(!new)>(s: State<T>, es: seq<Step<T>>, s': State<T>)
    decreases |es|
  {
    if es == [] then s == s'
    else exists m ::
      Runs(s, es[..|es| - 1], m) && |m.buf| == |m.ids| && Enabled(m, es[|es| - 1]) && Next(m, es[|es| - 1]) == s'
  }

  // -------------------------------------------------------------------- RemoveIf

  /** From `s` to `s'` elements with old IDs have only been taken out, and new elements have
      new IDs. */
  ghost predicate Follows<T>(s: State<T>, s': State<T>) {
    && s.added <= s'.added
    && forall i :: 0 <= i < |s'.ids| && s'.ids[i] <= |s.added| ==> s'.ids[i] in s.ids
  }

  lemma AppendGood<T>(s: State<T>, p: seq<T>)
    requires Good(s)
    ensures Good(Append(s, p)) && Follows(s, Append(s, p))
  {
    var s' := Append(s, p);
    forall i | 0 <= i < |s'.ids|
      ensures 0 < s'.ids[i] <= |s'.added| && s'.added[s'.ids[i] - 1] == s'.buf[i]
      ensures s'.ids[i] <= |s.added| ==> s'.ids[i] in s.ids
    {
      if i < |s.ids| {
        assert s'.ids[i] == s.ids[i] && s'.buf[i] == s.buf[i];
      } else {
        assert s'.ids[i] == |s.added| + 1 + (i - |s.ids|) && s'.buf[i] == p[i - |s.ids|];
      }
    }
  }

  lemma SweepGood<T>(s: State<T>, doomed: set<nat>)
    requires Good(s)
    ensures var s' := s.(buf := KeptValues(s.buf, s.ids, doomed), ids := KeptIds(s.ids, doomed));
      Good(s') && Follows(s, s')
  {
    var s' := s.(buf := KeptValues(s.buf, s.ids, doomed), ids := KeptIds(s.ids, doomed));
    KeptAscending(s.ids, doomed);
    forall k | 0 <= k < |s'.ids|
      ensures 0 < s'.ids[k] <= |s'.added| && s'.added[s'.ids[k] - 1] == s'.buf[k] && s'.ids[k] in s.ids
    {
      var i := KeptOrigin(s.buf, s.ids, doomed, k);
    }
  }

  lemma FrontGood<T>(s: State<T>, n: nat)
    requires Good(s)
    ensures Good(Front(s, n)) && Follows(s, Front(s, n))
  {
    var s' := Front(s, n);
    if n <= |s.buf| {
      forall i | 0 <= i < |s'.ids| ensures s'.ids[i] == s.ids[i + n] && s'.buf[i] == s.buf[i + n] {
      }
    }
  }

  /** A step that leaves the elements alone. */
  lemma SameGood<T>(s: State<T>, s': State<T>)
    requires Good(s) && s'.buf == s.buf && s'.ids == s.ids && s'.added == s.added
    requires s'.notifyClosed == s'.closeWrite && s'.closeErr == s.closeErr
    requires (s.closeWrite ==> s'.closeWrite) && (s'.pending.Some? ==> !s'.closeWrite)
    ensures Good(s') && Follows(s, s')
    ensures forall r :: Follows(r, s) ==> Follows(r, s')
  {
  }

  lemma EnterGood<T>(s: State<T>, c: nat, max: nat)
    requires Good(s) && Enabled(s, Enter(c, max))
    ensures var s' := Next(s, Enter(c, max)); Good(s') && Follows(s, s') && |s'.consumers| == |s.consumers|
  {
    var n := if max <= |s.buf| then max else |s.buf|;
    if s.closeErr.None? && s.buf != [] {
      FrontGood(s, n);
      SameGood(Front(s, n), Become(Front(s, n), c, Idle));
    } else {
      SameGood(s, Next(s, Enter(c, max)));
    }
  }

  lemma AddGood<T>(s: State<T>, x: T)
    requires Good(s) && Enabled(s, Add(x))
    ensures var s' := Next(s, Add(x)); Good(s') && Follows(s, s') && s'.consumers == s.consumers
  {
    AppendGood(s, [x]);
    SameGood(Append(s, [x]), Append(s, [x]).(token := true));
  }

  lemma WriteAppendGood<T>(s: State<T>)
    requires Good(s) && s.pending.Some?
    ensures var s' := Next(s, WriteAppend); Good(s') && Follows(s, s') && s'.consumers == s.consumers
  {
    AppendGood(s, s.pending.value);
    SameGood(Append(s, s.pending.value), Append(s, s.pending.value).(pending := None));
  }

  lemma StepGood<T>(s: State<T>, e: Step<T>)
    requires Good(s) && Enabled(s, e)
    ensures Good(Next(s, e)) && Follows(s, Next(s, e)) && |Next(s, e).consumers| == |s.consumers|
  {
    match e
    case Enter(c, max) => EnterGood(s, c, max);
    case Add(x) => AddGood(s, x);
    case WriteAppend => WriteAppendGood(s);
    case Drop(n) => FrontGood(s, n);
    case Sweep(doomed) => SweepGood(s, doomed);
    case CloseWithError(_) =>
    case _ => SameGood(s, Next(s, e));
  }

  lemma FollowsChain<T>(a: State<T>, b: State<T>, c: State<T>)
    requires Good(b) && Follows(a, b) && Follows(b, c)
    ensures Follows(a, c)
  {
    forall i | 0 <= i < |c.ids| && c.ids[i] <= |a.added| ensures c.ids[i] in a.ids {
      assert c.ids[i] in b.ids;
    }
  }

  lemma {:induction false} RunGood<T(!new)>(s: State<T>, es: seq<Step<T>>, s': State<T>)
    requires Good(s) && Runs(s, es, s')
    ensures Good(s') && Follows(s, s') && |s'.consumers| == |s.consumers|
  {
    if es != [] {
      var m :| Runs(s, es[..|es| - 1], m) && |m.buf| == |m.ids| && Enabled(m, es[|es| - 1]) && Next(m, es[|es| - 1]) == s';
      RunGood(s, es[..|es| - 1], m);
      StepGood(m, es[|es| - 1]);
      FollowsChain(s, m, s');
    }
  }

  lemma DoomedExactly<T>(s: State<T>, s': State<T>, pred: T -> bool, doomed: set<nat>, i: nat)
    requires Good(s) && Good(s') && Follows(s, s') && i < |s'.ids|
    requires forall id :: id in doomed <==> exists j :: 0 <= j < |s.ids| && s.ids[j] == id && pred(s.buf[j])
    ensures s'.ids[i] in doomed <==> s'.ids[i] in s.ids && pred(s'.buf[i])
  {
    if s'.ids[i] in s.ids {
      var j :| 0 <= j < |s.ids| && s.ids[j] == s'.ids[i];
      assert s.buf[j] == s.added[s.ids[j] - 1] == s'.buf[i];
      if s'.ids[i] in doomed {
        var k :| 0 <= k < |s.ids| && s.ids[k] == s'.ids[i] && pred(s.buf[k]);
        assert k == j;
      }
    }
  }

  /** RemoveIf with any other operations between its two critical sections: `s` is the
      queue at the snapshot, `s'` the queue when the sweep begins, `doomed` what the
      predicate picked. The sweep removes an element if and only if it was in the snapshot
      and satisfies the predicate, so never a later element with an equal value; what it
      keeps stays in order, each with its own ID. */
  lemma RemoveIfExact<T(!new)>(s: State<T>, es: seq<Step<T>>, s': State<T>, pred: T -> bool, doomed: set<nat>)
    requires Good(s) && Runs(s, es, s')
    requires forall id :: id in doomed <==> exists j :: 0 <= j < |s.ids| && s.ids[j] == id && pred(s.buf[j])
    ensures |s'.buf| == |s'.ids|
    ensures forall i :: 0 <= i < |s'.ids| ==>
      (s'.ids[i] !in KeptIds(s'.ids, doomed) <==> s'.ids[i] in s.ids && pred(s'.buf[i]))
    ensures forall i :: 0 <= i < |s'.ids| && s'.ids[i] > |s.added| ==> s'.ids[i] in KeptIds(s'.ids, doomed)
    ensures Good(s'.(buf := KeptValues(s'.buf, s'.ids, doomed), ids := KeptIds(s'.ids, doomed)))
  {
    RunGood(s, es, s');
    SweepGood(s', doomed);
    forall i | 0 <= i < |s'.ids|
      ensures s'.ids[i] !in KeptIds(s'.ids, doomed) <==> s'.ids[i] in s.ids && pred(s'.buf[i])
      ensures s'.ids[i] > |s.added| ==> s'.ids[i] in KeptIds(s'.ids, doomed)
    {
      DoomedExactly(s, s', pred, doomed, i);
      KeptIff(s'.buf, s'.ids, doomed, i);
    }
  }

  lemma KeptIff<T>(values: seq<T>, ids: seq<nat>, doomed: set<nat>, i: nat)
    requires |values| == |ids| && i < |ids|
    ensures ids[i] in KeptIds(ids, doomed) <==> ids[i] !in doomed
  {
    if ids[i] !in doomed {
      var k := KeptComplete(values, ids, doomed, i);
    } else if ids[i] in KeptIds(ids, doomed) {
      var k :| 0 <= k < |KeptIds(ids, doomed)| && KeptIds(ids, doomed)[k] == ids[i];
      var j := KeptOrigin(values, ids, doomed, k);
    }
  }

  // --------------------------------------------------------------------- wake-ups

  /** Consumer `c` has decided to wait although there is something for it. */
  predicate OughtToWake<T>(s: State<T>, c: nat) {
    c < |s.consumers| && s.consumers[c].Waiting? && (s.buf != [] || s.closeWrite)
  }

  ghost predicate NoMissedToken<T>(s: State<T>) {
    forall c :: 0 <= c < |s.consumers| && OughtToWake(s, c) ==> s.token || s.notifyClosed
  }

  /** What one consumer's runs keep; a Write that has left its token also counts. */
  ghost predicate TokenKept<T>(s: State<T>) {
    forall c :: 0 <= c < |s.consumers| && s.consumers[c].Waiting? && (s.buf != [] || s.closeWrite || s.pending.Some?)
      ==> s.token || s.notifyClosed
  }

  lemma StepKeepsToken<T>(s: State<T>, e: Step<T>)
    requires Good(s) && Enabled(s, e) && |s.consumers| <= 1 && TokenKept(s)
    ensures TokenKept(Next(s, e))
  {
    if e.Sweep? && s.buf == [] {
      assert KeptValues(s.buf, s.ids, e.doomed) == [];
    }
  }

  lemma {:induction false} OneConsumerNeverMisses<T(!new)>(consumers: nat, es: seq<Step<T>>, s: State<T>)
    requires consumers <= 1 && Runs(Init<T>(consumers), es, s)
    ensures Good(s) && TokenKept(s) && |s.consumers| == consumers
  {
    RunGood(Init<T>(consumers), es, s);
    if es != [] {
      var pre, e := es[..|es| - 1], es[|es| - 1];
      var m :| Runs(Init<T>(consumers), pre, m) && |m.buf| == |m.ids| && Enabled(m, e) && Next(m, e) == s;
      OneConsumerNeverMisses(consumers, pre, m);
      StepKeepsToken(m, e);
    }
  }

  ghost predicate CanMiss<T(!new)>(consumers: nat) {
    exists es, s: State<T> :: Runs(Init<T>(consumers), es, s) && !NoMissedToken(s)
  }

  lemma RunExtends<T(!new)>(s0: State<T>, es: seq<Step<T>>, s: State<T>, e: Step<T>)
    requires Runs(s0, es, s) && |s.buf| == |s.ids| && Enabled(s, e)
    ensures Runs(s0, es + [e], Next(s, e))
  {
    assert (es + [e])[..|es + [e]| - 1] == es;
  }

  /** Two consumers wait, two elements are added: the second token does not fit the channel,
      and the second consumer stays asleep in front of an element. */
  lemma TwoConsumersMiss<T(!new)>(consumers: nat, x: T)
    requires consumers >= 2
    ensures CanMiss<T>(consumers)
  {
    var s0 := Init<T>(consumers);
    var s1 := Become(s0, 0, AtLock);
    RunExtends(s0, [], s0, Call(0));
    var s2 := Become(s1, 0, Waiting);
    RunExtends(s0, [] + [Call(0)], s1, Enter(0, 1));
    var es2 := [] + [Call(0)] + [Enter(0, 1)];
    var s3 := Become(s2, 1, AtLock);
    RunExtends(s0, es2, s2, Call(1));
    var s4 := Become(s3, 1, Waiting);
    RunExtends(s0, es2 + [Call(1)], s3, Enter(1, 1));
    TwoConsumersEnd(consumers, x, es2 + [Call(1)] + [Enter(1, 1)], s4);
  }

  lemma TwoConsumersEnd<T(!new)>(consumers: nat, x: T, es4: seq<Step<T>>, s4: State<T>)
    requires Runs(Init<T>(consumers), es4, s4) && |s4.consumers| >= 2
    requires s4.buf == [] && s4.ids == [] && s4.pending.None? && !s4.closeWrite && s4.closeErr.None? && !s4.notifyClosed
    requires s4.consumers[0].Waiting? && s4.consumers[1].Waiting?
    ensures CanMiss<T>(consumers)
  {
    var s0 := Init<T>(consumers);
    var s5 := Next(s4, Add(x));
    RunExtends(s0, es4, s4, Add(x));
    assert |s5.buf| == |s5.ids| == 1;
    var s6 := Next(s5, Add(x));
    RunExtends(s0, es4 + [Add(x)], s5, Add(x));
    assert |s6.buf| == |s6.ids| == 2 && s6.consumers == s4.consumers;
    OneOfTwoServed(consumers, es4 + [Add(x)] + [Add(x)], s6);
  }

  lemma OneOfTwoServed<T(!new)>(consumers: nat, es: seq<Step<T>>, s: State<T>)
    requires Runs(Init<T>(consumers), es, s) && |s.consumers| >= 2
    requires |s.buf| == |s.ids| == 2 && s.pending.None? && !s.closeWrite && s.closeErr.None? && !s.notifyClosed
    requires s.consumers[0].Waiting? && s.consumers[1].Waiting? && s.token
    ensures CanMiss<T>(consumers)
  {
    var s' := Become(s.(token := false), 0, AtLock);
    RunExtends(Init<T>(consumers), es, s, Receive(0));
    assert Next(s, Receive(0)) == s';
    OtherStillWaits(consumers, es + [Receive(0)], s');
  }

  lemma OtherStillWaits<T(!new)>(consumers: nat, es: seq<Step<T>>, s: State<T>)
    requires Runs(Init<T>(consumers), es, s) && |s.consumers| >= 2
    requires |s.buf| == |s.ids| == 2 && s.pending.None? && !s.closeWrite && s.closeErr.None? && !s.notifyClosed
    requires s.consumers[0].AtLock? && s.consumers[1].Waiting? && !s.token
    ensures CanMiss<T>(consumers)
  {
    var s' := Become(Front(s, 1), 0, Idle);
    RunExtends(Init<T>(consumers), es, s, Enter(0, 1));
    assert Next(s, Enter(0, 1)) == s';
    assert OughtToWake(s', 1) && !NoMissedToken(s');
  }

  /** A consumer committed to waiting on a non-empty or closed queue always finds a token or
      a closed channel, in every run, if and only if there is at most one consumer. */
  lemma MissesIff<T(!new)>(consumers: nat, x: T)
    ensures CanMiss<T>(consumers) <==> consumers >= 2
  {
    if consumers >= 2 {
      TwoConsumersMiss(consumers, x);
    } else {
      forall es, s: State<T> | Runs(Init<T>(consumers), es, s) ensures NoMissedToken(s) {
        OneConsumerNeverMisses(consumers, es, s);
      }
    }
  }
}
