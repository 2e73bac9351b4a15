/** The two ways in which the lifecycle changes the turns that are there: it writes to one turn,
    or it ends some and leaves the others as they are (pkgs/gizclaw/peer_stream_lifecycle.go). */
module LifecycleSheds {
  import opened Options
  import opened Collections
  import opened Lifecycles
  import opened LifecycleRuns

  /** A stage is in a turn's story exactly when there is a record of it. */
  lemma {:induction false} StoryRecords(log: seq<Record>, i: nat, x: Stage)
    ensures x in Of(log, i) <==> exists o :: Record(i, x, o) in log
  {
    if log != [] {
      var pre, r := log[..|log| - 1], log[|log| - 1];
      assert log == pre + [r];
      StoryRecords(pre, i, x);
      if r.turn == i && r.stage == x {
        assert Record(i, x, r.outcome) in log;
      }
    }
  }

  /** Nothing is said of turn `i`. */
  ghost predicate Silent(s: Life, s': Life, i: nat) {
    forall x, o :: Record(i, x, o) in s'.log <==> Record(i, x, o) in s.log
  }

  // -------------------------------------------------------------------------------- writing

  /** Only turn `i` and its records are touched. */
  ghost predicate Touches(s: Life, s': Life, i: nat) {
    && s' == s.(turns := s'.turns, log := s'.log) && s'.turns.Keys == s.turns.Keys
    && forall j :: j in s.turns && j != i ==> s'.turns[j] == s.turns[j] && Silent(s, s', j)
  }

  lemma TouchesOn(s: Life, m: Life, s': Life, i: nat)
    requires Touches(s, m, i) && Touches(m, s', i)
    ensures Touches(s, s', i)
  {
    assert forall j :: j in s.turns <==> j in m.turns.Keys;
  }

  lemma PutTouches(s: Life, i: nat, t: Turn)
    requires i in s.turns
    ensures Touches(s, Put(s, i, t), i)
  {
  }

  lemma OnceTouches(s: Life, i: nat, x: Stage, o: Note)
    requires i in s.turns
    ensures Touches(s, Once(s, i, x, o), i)
  {
  }

  lemma MarkTouches(s: Life, i: nat, t: Turn, x: Stage, o: Note)
    requires i in s.turns
    ensures Touches(s, Once(Put(s, i, t), i, x, o), i)
  {
    PutTouches(s, i, t);
    OnceTouches(Put(s, i, t), i, x, o);
    TouchesOn(s, Put(s, i, t), Once(Put(s, i, t), i, x, o), i);
  }

  lemma EnsureTouches(s: Life, i: nat, o: Note)
    requires i in s.turns
    ensures Touches(s, EnsureAgentTerminal(s, i, o), i)
  {
    if !s.turns[i].agentTerminal {
      MarkTouches(s, i, s.turns[i].(agentTerminal := true), AgentTerminal, o);
    }
  }

  // --------------------------------------------------------------------------------- ending

  /** `m'` is what is left of `m` when only the turns in `live` are. */
  ghost predicate Narrows<K(!new)>(m: map<K, nat>, m': map<K, nat>, live: set<nat>) {
    forall k :: (k in m' <==> k in m && m[k] in live) && (k in m' ==> m'[k] == m[k])
  }

  lemma NarrowsOn<K(!new)>(m: map<K, nat>, m': map<K, nat>, m'': map<K, nat>, live: set<nat>, live': set<nat>)
    requires Narrows(m, m', live) && Narrows(m', m'', live') && live' <= live
    ensures Narrows(m, m'', live')
  {
  }

  lemma {:induction false} KeepTwice<T>(xs: seq<T>, keep: set<T>, less: set<T>)
    requires less <= keep
    ensures Keep(Keep(xs, keep), less) == Keep(xs, less)
  {
    if xs != [] {
      var pre, last := xs[..|xs| - 1], xs[|xs| - 1];
      KeepTwice(pre, keep, less);
      if last in keep {
        var r := Keep(pre, keep) + [last];
        assert r[..|r| - 1] == Keep(pre, keep) && r[|r| - 1] == last;
      }
    }
  }

  lemma {:induction false} KeepAll<T>(xs: seq<T>, keep: set<T>)
    requires forall x :: x in xs ==> x in keep
    ensures Keep(xs, keep) == xs
  {
    if xs != [] {
      KeepAll(xs[..|xs| - 1], keep);
    }
  }

  /** Turns are ended; the others, their indexes and their records stay. */
  ghost predicate Sheds(s: Life, s': Life) {
    && s'.nextIndex == s.nextIndex && s'.finished == s.finished && s'.turns.Keys <= s.turns.Keys
    && (forall i :: i in s'.turns ==> s'.turns[i] == s.turns[i] && Silent(s, s', i))
    && s'.current == (if s.current in s'.turns then s.current else 0)
    && Narrows(s.inputTurns, s'.inputTurns, s'.turns.Keys)
    && Narrows(s.epochTurns, s'.epochTurns, s'.turns.Keys)
    && Narrows(s.outputTurns, s'.outputTurns, s'.turns.Keys)
    && s'.epochOrder == Keep(s.epochOrder, s'.epochTurns.Keys)
  }

  lemma ShedsNone(s: Life)
    requires Formed(s)
    ensures Sheds(s, s)
  {
    assert Obeys(s, TurnLaw) && Obeys(s, LinkLaw) && Obeys(s, EpochLaw);
    KeepAll(s.epochOrder, s.epochTurns.Keys);
  }

  lemma ShedsOn(s: Life, m: Life, s': Life)
    requires Sheds(s, m) && Sheds(m, s') && 0 !in s'.turns
    ensures Sheds(s, s')
  {
    assert forall i :: i in s'.turns ==> i in s'.turns.Keys && i in m.turns.Keys;
    NarrowsOn(s.inputTurns, m.inputTurns, s'.inputTurns, m.turns.Keys, s'.turns.Keys);
    NarrowsOn(s.epochTurns, m.epochTurns, s'.epochTurns, m.turns.Keys, s'.turns.Keys);
    NarrowsOn(s.outputTurns, m.outputTurns, s'.outputTurns, m.turns.Keys, s'.turns.Keys);
    KeepTwice(s.epochOrder, m.epochTurns.Keys, s'.epochTurns.Keys);
  }

  /** A turn that is written to and then ended. */
  lemma TouchedSheds(s: Life, m: Life, s': Life, i: nat)
    requires Touches(s, m, i) && Sheds(m, s') && i !in s'.turns
    ensures Sheds(s, s')
  {
    assert forall j :: j in s'.turns ==> j in s'.turns.Keys && j in s.turns.Keys;
  }

  lemma WithoutNarrows<K(!new)>(m: map<K, nat>, i: nat, live: set<nat>)
    requires forall k :: k in m ==> m[k] in live
    ensures Narrows(m, Without(m, i), live - {i})
  {
  }

  lemma TerminateSilent(s: Life, i: nat, o: Note, j: nat)
    requires j != i
    ensures Silent(s, Terminate(s, i, o), j)
  {
    assert Terminate(s, i, o).log == s.log + [Record(i, TurnTerminal, o)];
  }

  lemma TerminateNarrows(s: Life, i: nat, o: Note)
    requires Formed(s)
    ensures var s' := Terminate(s, i, o);
      && s'.turns.Keys == s.turns.Keys - {i}
      && Narrows(s.inputTurns, s'.inputTurns, s'.turns.Keys) && Narrows(s.epochTurns, s'.epochTurns, s'.turns.Keys)
      && Narrows(s.outputTurns, s'.outputTurns, s'.turns.Keys)
  {
    assert Obeys(s, LinkLaw) && Obeys(s, EpochLaw);
    WithoutNarrows(s.inputTurns, i, s.turns.Keys);
    WithoutNarrows(s.epochTurns, i, s.turns.Keys);
    WithoutNarrows(s.outputTurns, i, s.turns.Keys);
  }

  lemma TerminateCurrent(s: Life, i: nat, o: Note)
    requires Formed(s)
    ensures var s' := Terminate(s, i, o); s'.current == if s.current in s'.turns then s.current else 0
  {
    assert Obeys(s, LinkLaw);
  }

  lemma TerminateSheds(s: Life, i: nat, o: Note)
    requires Formed(s) && i in s.turns
    ensures Sheds(s, Terminate(s, i, o))
  {
    TerminateNarrows(s, i, o);
    TerminateCurrent(s, i, o);
    forall j | j in Terminate(s, i, o).turns ensures Silent(s, Terminate(s, i, o), j) {
      TerminateSilent(s, i, o, j);
    }
  }

  lemma EndSheds(s: Life, i: nat, agent: Note, o: Note)
    requires Formed(s) && i in s.turns
    ensures Sheds(s, End(s, i, agent, o))
  {
    var s1 := EnsureAgentTerminal(s, i, agent);
    SameForm(s, s1);
    EnsureTouches(s, i, agent);
    TerminateSheds(s1, i, o);
    TouchedSheds(s, s1, Terminate(s1, i, o), i);
  }

  lemma NoTurnZero(s: Life)
    requires Formed(s)
    ensures 0 !in s.turns
  {
    assert Obeys(s, TurnLaw);
  }

  lemma {:induction false} EvictTurnsSheds(s: Life)
    requires Formed(s)
    ensures Sheds(s, EvictTurns(s))
    decreases |s.turns|
  {
    ShedsNone(s);
    if |s.turns| > MAX_TURNS && s.turnOrder != [] {
      assert Obeys(s, TurnLaw);
      var s1 := End(s, s.turnOrder[0], StateLimit, StateLimit);
      EndForms(s, s.turnOrder[0], StateLimit, StateLimit);
      EndSheds(s, s.turnOrder[0], StateLimit, StateLimit);
      EvictTurnsSheds(s1);
      EvictTurnsForms(s1);
      NoTurnZero(EvictTurns(s1));
      ShedsOn(s, s1, EvictTurns(s1));
    }
  }

  lemma {:induction false} EvictEpochsSheds(s: Life, owner: string)
    requires Formed(s)
    ensures Sheds(s, EvictEpochs(s, owner))
    decreases |s.epochTurns|
  {
    ShedsNone(s);
    if !(|s.epochTurns| < MAX_ROUTES || s.epochOrder == [] || Owned(s, owner).None?) {
      assert Obeys(s, EpochLaw);
      var i := s.epochTurns[s.epochOrder[0]];
      assert i in s.epochTurns.Values;
      var s1 := End(s, i, StateLimit, StateLimit);
      EndForms(s, i, StateLimit, StateLimit);
      EndSheds(s, i, StateLimit, StateLimit);
      EvictEpochsSheds(s1, owner);
      EvictEpochsForms(s1, owner);
      NoTurnZero(EvictEpochs(s1, owner));
      ShedsOn(s, s1, EvictEpochs(s1, owner));
    }
  }

  lemma FinalizeTouches(s: Life, i: nat, o: Note)
    requires i in s.turns
    ensures Touches(s, Finalize(s, i, o), i)
  {
    MarkTouches(s, i, s.turns[i].(outputTerminal := true), OutputTerminal, o);
  }

  lemma EndOldestSheds(s: Life, output: bool, o: Note)
    requires Formed(s) && s.turnOrder != []
    ensures Sheds(s, EndOldest(s, output, o))
  {
    assert Obeys(s, TurnLaw);
    var i := s.turnOrder[0];
    var s1 := EnsureAgentTerminal(s, i, o);
    EnsureTouches(s, i, o);
    SameForm(s, s1);
    EndedSheds(s1, i, output, o);
    TouchedSheds(s, s1, EndOldest(s, output, o), i);
  }

  lemma EndedSheds(s: Life, i: nat, output: bool, o: Note)
    requires Formed(s) && i in s.turns
    ensures var s1 := if output then Finalize(s, i, o) else s; Sheds(s, Terminate(s1, i, o)) && i !in Terminate(s1, i, o).turns
  {
    var s1 := if output then Finalize(s, i, o) else s;
    if output {
      FinalizeTouches(s, i, o);
    }
    SameForm(s, s1);
    TerminateSheds(s1, i, o);
    if output {
      TouchedSheds(s, s1, Terminate(s1, i, o), i);
    }
  }

  lemma {:induction false} EndAllSheds(s: Life, output: bool, o: Note)
    requires Formed(s) && Bounded(s)
    ensures Sheds(s, EndAll(s, output, o))
    decreases |s.turns|
  {
    ShedsNone(s);
    if s.turnOrder != [] {
      var s1 := EndOldest(s, output, o);
      EndOldestForms(s, output, o);
      EndOldestSheds(s, output, o);
      EndAllSheds(s1, output, o);
      EndAllForms(s1, output, o);
      ShedsOn(s, s1, EndAll(s1, output, o));
    }
  }

  /** The end of an output unbinds the route of the chunk, whichever turn it is bound to, and ends
      the turn. */
  function Unrouted(s: Life, c: Output): (s': Life) { s.(outputTurns := s.outputTurns - {c.streamID}) }

  lemma UnroutedForms(s: Life, c: Output)
    requires Formed(s) && Bounded(s)
    ensures Formed(Unrouted(s, c)) && Bounded(Unrouted(s, c))
  {
    FewerRoutes(s, Unrouted(s, c));
  }

  lemma EndOutputSheds(s: Life, c: Output, i: nat)
    requires Formed(s) && Bounded(s) && i in s.turns
    ensures Sheds(Unrouted(s, c), EndOutput(s, c, i))
  {
    var m := Unrouted(s, c);
    var s1 := Finalize(m, i, c.outcome);
    var o := if s1.turns[i].pending then Replaced else c.outcome;
    UnroutedForms(s, c);
    FinalizeTouches(m, i, c.outcome);
    SameForm(m, s1);
    TerminateSheds(s1, i, o);
    TouchedSheds(m, s1, Terminate(s1, i, o), i);
    UnroutesFirst(s, c, i);
  }

  lemma UnroutesFirst(s: Life, c: Output, i: nat)
    requires i in s.turns
    ensures var s1 := Finalize(Unrouted(s, c), i, c.outcome);
      EndOutput(s, c, i) == Terminate(s1, i, if s1.turns[i].pending then Replaced else c.outcome)
  {
    assert Finalize(Unrouted(s, c), i, c.outcome) == Unrouted(Finalize(s, i, c.outcome), c);
  }
}
