/** What a refresh of the input permission gives, and what the cache holds, told from the lookups
    that were kept (pkgs/gizclaw/peer_input_permissions.go). */
module InputRefreshes {
  import opened Options
  import opened InputPermissions

  // ------------------------------------------------------------------------ the last lookup

  /** The cache holds the result of the last lookup that was kept, if any was; the lookup under
      way is the newest. */
  ghost predicate Latest(s: Cache) {
    && (s.valid <==> s.stored != map[])
    && (s.valid ==> s.value.lookup in s.stored && forall n :: n in s.stored ==> n <= s.value.lookup)
    && (s.waiting.Some? ==> s.waiting.value + 1 == s.nextLookup)
  }

  lemma StepLatest(s: Cache, e: Event)
    requires Inv(s) && Latest(s) && Possible(s, e)
    ensures Latest(Step(s, e))
  {
    if e.Stores? {
      StoreLatest(s, e.i);
    }
  }

  lemma StoreLatest(s: Cache, i: nat)
    requires Inv(s) && Latest(s) && Possible(s, Stores(i))
    ensures Latest(Step(s, Stores(i)))
  {
    var v, s' := s.callers[i].value, Step(s, Stores(i));
    assert MakingAt(s, i) == s.waiting;
    if s'.stored != s.stored {
      assert v.lookup in s'.stored;
    }
  }

  lemma {:induction false} RunLatest(es: seq<Event>, s: Cache)
    requires Runs(Start(), es, s)
    ensures Latest(s)
  {
    if es != [] {
      var pre, e := es[..|es| - 1], es[|es| - 1];
      var m :| Runs(Start(), pre, m) && Steps(m, e, s);
      RunKeeps(Start(), pre, m);
      RunLatest(pre, m);
      StepLatest(m, e);
    }
  }

  lemma {:induction false} ClosedIsTold(es: seq<Event>, s: Cache)
    requires Runs(Start(), es, s)
    ensures s.closed <==> Stops in es
  {
    if es != [] {
      var pre, e := es[..|es| - 1], es[|es| - 1];
      assert es == pre + [e];
      var m :| Runs(Start(), pre, m) && Steps(m, e, s);
      ClosedIsTold(pre, m);
      StepClosed(m, e);
    }
  }

  lemma StepClosed(s: Cache, e: Event)
    requires Possible(s, e)
    ensures Step(s, e).closed <==> s.closed || e == Stops
  {
  }

  /** Lookup `n` was kept, and none after it. */
  ghost predicate KeptLast(s: Cache, n: nat) { n in s.stored && forall m :: m in s.stored ==> m <= n }

  /** The last lookup that was kept did not deny, began at most 7 seconds ago and stands for the
      given revision. */
  ghost predicate Decides(s: Cache, revision: nat) {
    exists n :: KeptLast(s, n) && !s.stored[n].value.denied
                && s.clock <= s.stored[n].value.checkedAt + MAX_AGE && s.value.revision == revision
  }

  /** Audio passes exactly while the worker has not been stopped and either no lookup was kept
      yet, or the last one that was did not deny, began at most 7 seconds ago, and stands for the
      runtime revision that the audio has. */
  lemma AudioPassesIff(es: seq<Event>, s: Cache, revision: nat)
    requires Runs(Start(), es, s)
    ensures AllowsAudio(s, revision) <==>
      && Stops !in es
      && (s.stored != map[] ==> Decides(s, revision))
  {
    RunKeeps(Start(), es, s);
    RunLatest(es, s);
    ClosedIsTold(es, s);
    DecidesIff(s, revision);
  }

  lemma DecidesIff(s: Cache, revision: nat)
    requires Sourced(s) && Latest(s)
    ensures AllowsAudio(s, revision) <==> !s.closed && (s.stored != map[] ==> Decides(s, revision))
  {
    if s.stored != map[] {
      assert KeptLast(s, s.value.lookup);
    }
  }

  /** A cached value is given out exactly when its lookup began at most 7 seconds ago. */
  lemma CheckIff(s: Cache, i: nat)
    requires Possible(s, Checks(i))
    ensures var v := s.callers[i].value;
      Step(s, Checks(i)).callers[i] ==
        Answered(if s.clock <= v.checkedAt + MAX_AGE then Some(v) else None, s.clock)
  {
  }

  /** A recovery of the same workspace carries a decision that allows over to the current
      revision: callers of that revision get it, as old as it was. A decision for another
      workspace or revision, and a denial, stay as they are. */
  lemma RecoveryCarriesOver(s: Cache, workspace: string, previous: nat, current: nat, i: nat)
    requires i in s.callers && s.callers[i] == Asks(current, false) && !s.closed
    ensures var s' := Step(s, Advances(workspace, previous, current));
      var carried := s.valid && !s.value.denied && s.value.workspace == workspace && s.value.revision == previous && s.revision == current;
      && (carried ==> Look(s', i, current, false).callers[i] == Holds(s.value.(revision := current, active := true)))
      && (!carried ==> s' == s)
  {
  }

  // --------------------------------------------------------------------------------- refresh

  /** Lookups that end after state `s` have at least this number, those kept before less. */
  function Bar(s: Cache): (n: nat) { if s.waiting.Some? then s.waiting.value else s.nextLookup }

  /** Since `s0` only lookups from the bar on were kept. */
  ghost predicate Since(s0: Cache, s: Cache) {
    && Bar(s0) <= Bar(s)
    && (forall n :: n in s0.stored ==> n in s.stored && n < Bar(s0))
    && (forall n :: n in s.stored && n < Bar(s0) ==> n in s0.stored)
  }

  lemma SinceStarts(s: Cache)
    requires Inv(s) && Latest(s)
    ensures Since(s, s)
  {
  }

  lemma StepSince(s0: Cache, s: Cache, e: Event)
    requires Inv(s) && Latest(s) && Since(s0, s) && Possible(s, e)
    ensures Since(s0, Step(s, e))
  {
    if e.Stores? {
      assert MakingAt(s, e.i) == s.waiting;
    }
  }

  /** What is cached was kept before `s0` exactly when nothing has been kept since. */
  lemma OldIff(s0: Cache, s: Cache)
    requires Latest(s) && Since(s0, s) && s.valid
    ensures s.value.lookup in s0.stored <==> s.stored.Keys == s0.stored.Keys
  {
    if s.value.lookup in s0.stored {
      forall n | n in s.stored ensures n in s0.stored {
        assert n <= s.value.lookup;
      }
    }
  }

  /** A run of the cache after caller `i` entered with `refresh` in state `s0`, up to the end of
      that call. */
  ghost predicate Trace(s0: Cache, i: nat, es: seq<Event>, ss: seq<Cache>) {
    && |ss| == |es| + 1 && Possible(s0, Enters(i, true)) && ss[0] == Step(s0, Enters(i, true))
    && (forall k :: 0 <= k < |es| ==> Steps(ss[k], es[k], ss[k + 1]))
    && (forall k :: 0 <= k < |es| ==> !(es[k].Enters? && es[k].i == i))
  }

  /** Before step `k` caller `i` had joined lookup `m`. */
  ghost predicate Joined(ss: seq<Cache>, i: nat, k: nat, m: nat) {
    exists l :: 0 <= l < k && l < |ss| && i in ss[l].callers && ss[l].callers[i].Waits? && ss[l].callers[i].on == m
  }

  /** At step `k` caller `i` took the cached value although nothing had been kept since it
      entered. */
  ghost predicate TookOld(s0: Cache, i: nat, es: seq<Event>, ss: seq<Cache>, k: nat) {
    && k < |es| && |ss| == |es| + 1 && es[k] == Looks(i)
    && i in ss[k + 1].callers && ss[k + 1].callers[i].Holds? && ss[k].stored.Keys == s0.stored.Keys
  }

  ghost predicate TookOldBefore(s0: Cache, i: nat, es: seq<Event>, ss: seq<Cache>, n: nat) {
    exists k: nat :: k < n && TookOld(s0, i, es, ss, k)
  }

  /** How far caller `i` is in its refresh; `took` if it took an old value. */
  ghost predicate Refreshing(s0: Cache, s: Cache, i: nat, took: bool) {
    && i in s.callers
    && match s.callers[i]
       case Asks(_, _) => !took
       case Waits(_, m) => !took && Bar(s0) <= m < s.nextLookup
       case Claims(_, m) => !took && m >= Bar(s0)
       case Reads(_, m, _) => !took && m >= Bar(s0)
       case HasRead(v, _) => !took && v.lookup >= Bar(s0)
       case Holds(v) => v.lookup in s0.stored <==> took
       case Answered(a, _) => a.Some? ==> (a.value.lookup in s0.stored <==> took)
  }

  lemma LookRefreshing(s0: Cache, s: Cache, i: nat)
    requires Latest(s) && Since(s0, s) && Possible(s, Looks(i)) && Refreshing(s0, s, i, false)
    ensures var s' := Step(s, Looks(i));
      Refreshing(s0, s', i, s'.callers[i].Holds? && s.stored.Keys == s0.stored.Keys)
  {
    if s.valid {
      OldIff(s0, s);
    }
  }

  lemma OtherRefreshing(s0: Cache, s: Cache, e: Event, i: nat, took: bool)
    requires Since(s0, s) && Possible(s, e) && Refreshing(s0, s, i, took) && e != Looks(i) && !(e.Enters? && e.i == i)
    ensures Refreshing(s0, Step(s, e), i, took)
  {
    if (e.Stores? || e.Checks?) && e.i == i {
      AnswersRefreshing(s0, s, e, took);
    }
  }

  lemma AnswersRefreshing(s0: Cache, s: Cache, e: Event, took: bool)
    requires Since(s0, s) && Possible(s, e) && (e.Stores? || e.Checks?) && Refreshing(s0, s, e.i, took)
    ensures Refreshing(s0, Step(s, e), e.i, took)
  {
  }

  lemma TookGrows(s0: Cache, i: nat, es: seq<Event>, ss: seq<Cache>, n: nat)
    ensures TookOldBefore(s0, i, es, ss, n + 1) <==> TookOldBefore(s0, i, es, ss, n) || TookOld(s0, i, es, ss, n)
  {
  }

  /** The invariants at step `n` of the run. */
  ghost predicate Along(s0: Cache, i: nat, es: seq<Event>, ss: seq<Cache>, n: nat)
    requires n < |ss|
  {
    Inv(ss[n]) && Latest(ss[n]) && Since(s0, ss[n]) && Refreshing(s0, ss[n], i, TookOldBefore(s0, i, es, ss, n))
  }

  lemma EnterKeeps(s0: Cache, i: nat, es: seq<Event>, ss: seq<Cache>)
    requires Inv(s0) && Latest(s0) && Trace(s0, i, es, ss)
    ensures Along(s0, i, es, ss, 0)
  {
    StepKeeps(s0, Enters(i, true));
    StepLatest(s0, Enters(i, true));
    SinceStarts(s0);
    StepSince(s0, s0, Enters(i, true));
  }

  lemma StepAlong(s0: Cache, i: nat, es: seq<Event>, ss: seq<Cache>, n: nat)
    requires Trace(s0, i, es, ss) && n < |es| && Along(s0, i, es, ss, n)
    ensures Along(s0, i, es, ss, n + 1)
  {
    var s, e := ss[n], es[n];
    assert Steps(s, e, ss[n + 1]);
    StepKeeps(s, e);
    StepLatest(s, e);
    StepSince(s0, s, e);
    TookGrows(s0, i, es, ss, n);
    if e == Looks(i) {
      LookRefreshing(s0, s, i);
    } else {
      OtherRefreshing(s0, s, e, i, TookOldBefore(s0, i, es, ss, n));
    }
  }

  lemma {:induction false} RunAlong(s0: Cache, i: nat, es: seq<Event>, ss: seq<Cache>, n: nat)
    requires Inv(s0) && Latest(s0) && Trace(s0, i, es, ss) && n <= |es|
    ensures Along(s0, i, es, ss, n)
  {
    if n == 0 {
      EnterKeeps(s0, i, es, ss);
    } else {
      RunAlong(s0, i, es, ss, n - 1);
      StepAlong(s0, i, es, ss, n - 1);
    }
  }

  /** Caller `i` has joined a lookup that is over and was not kept. */
  ghost predicate JoinedOver(s0: Cache, i: nat, ss: seq<Cache>, n: nat)
    requires n < |ss|
  {
    exists m: nat :: Joined(ss, i, n, m) && Bar(s0) <= m < Bar(ss[n])
  }

  /** A caller that asks without refresh has joined such a lookup. */
  lemma {:induction false} AsksAgain(s0: Cache, i: nat, es: seq<Event>, ss: seq<Cache>, n: nat)
    requires Inv(s0) && Latest(s0) && Trace(s0, i, es, ss) && n <= |es|
    ensures i in ss[n].callers && ss[n].callers[i].Asks? && !ss[n].callers[i].refresh ==> JoinedOver(s0, i, ss, n)
  {
    if n > 0 && i in ss[n].callers && ss[n].callers[i].Asks? && !ss[n].callers[i].refresh {
      var s, e := ss[n - 1], es[n - 1];
      RunAlong(s0, i, es, ss, n - 1);
      assert Steps(s, e, ss[n]);
      if e == Wakes(i) {
        WakesOver(s0, s, i);
        assert Joined(ss, i, n, s.callers[i].on);
      } else {
        StaysAsking(s, e, i);
        AsksAgain(s0, i, es, ss, n - 1);
        var m: nat :| Joined(ss, i, n - 1, m) && Bar(s0) <= m < Bar(s);
        assert Joined(ss, i, n, m);
        BarGrows(s, e);
      }
    }
  }

  /** A caller wakes when the lookup that it joined is over. */
  lemma WakesOver(s0: Cache, s: Cache, i: nat)
    requires Latest(s) && Refreshing(s0, s, i, false) && Possible(s, Wakes(i))
    ensures Bar(s0) <= s.callers[i].on < Bar(Step(s, Wakes(i)))
  {
  }

  lemma StaysAsking(s: Cache, e: Event, i: nat)
    requires Possible(s, e) && i in Step(s, e).callers && Step(s, e).callers[i].Asks? && e != Wakes(i) && !(e.Enters? && e.i == i)
    ensures i in s.callers && s.callers[i] == Step(s, e).callers[i]
  {
  }

  lemma BarGrows(s: Cache, e: Event)
    requires Inv(s) && Latest(s) && Possible(s, e)
    ensures Bar(s) <= Bar(Step(s, e))
  {
    if e.Stores? {
      assert MakingAt(s, e.i) == s.waiting;
    }
  }

  /** What a refresh answers, over every continuation of the state that it entered in: the answer
      comes from a lookup that was kept after that, except exactly when the caller, on looking
      again, took what was cached while nothing had been kept since it entered. */
  lemma RefreshIsFresh(s0: Cache, i: nat, es: seq<Event>, ss: seq<Cache>, n: nat)
    requires Inv(s0) && Latest(s0) && Trace(s0, i, es, ss) && n <= |es|
    requires i in ss[n].callers && ss[n].callers[i].Answered? && ss[n].callers[i].answer.Some?
    ensures ss[n].callers[i].answer.value.lookup in s0.stored <==> TookOldBefore(s0, i, es, ss, n)
  {
    RunAlong(s0, i, es, ss, n);
  }

  /** And that happens only after it has joined a lookup, begun by another caller, that is over
      and was not kept. */
  lemma TookOldAfterJoining(s0: Cache, i: nat, es: seq<Event>, ss: seq<Cache>, k: nat)
    requires Inv(s0) && Latest(s0) && Trace(s0, i, es, ss) && TookOld(s0, i, es, ss, k)
    ensures exists m: nat :: Joined(ss, i, k, m) && m !in ss[k].stored && ss[k].waiting != Some(m)
  {
    RunAlong(s0, i, es, ss, k);
    AsksAgain(s0, i, es, ss, k);
    assert Steps(ss[k], es[k], ss[k + 1]);
    var m: nat :| Joined(ss, i, k, m) && Bar(s0) <= m < Bar(ss[k]);
    assert m !in s0.stored.Keys;
  }
}
