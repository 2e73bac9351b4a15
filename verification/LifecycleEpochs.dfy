/** Response epochs stay with their turn, and how turns end (pkgs/gizclaw/peer_stream_lifecycle.go). */
module LifecycleEpochs {
  import opened Options
  import opened Collections
  import opened Lifecycles
  import opened LifecycleRuns

  /** Each bound epoch is still bound to its turn, or that turn has ended; turns do not come
      back. */
  ghost predicate Follows(s: Life, s': Life) {
    && s.nextIndex <= s'.nextIndex
    && (forall i :: i in s'.turns ==> i in s.turns || i > s.nextIndex)
    && (forall e :: e in s.epochTurns ==>
          (e in s'.epochTurns && s'.epochTurns[e] == s.epochTurns[e]) || s.epochTurns[e] !in s'.turns)
  }

  lemma FollowsOn(s: Life, m: Life, s': Life)
    requires Formed(s) && Follows(s, m) && Follows(m, s')
    ensures Follows(s, s')
  {
    assert Obeys(s, TurnLaw);
    assert Obeys(s, EpochLaw);
  }

  lemma SameFollows(s: Life, s': Life)
    requires s'.turns.Keys == s.turns.Keys && s' == s.(turns := s'.turns, log := s'.log)
    ensures Follows(s, s')
  {
    assert forall i :: i in s'.turns ==> i in s.turns.Keys;
  }

  lemma TerminateFollows(s: Life, i: nat, o: Note)
    ensures Follows(s, Terminate(s, i, o))
  {
  }

  lemma EndFollows(s: Life, i: nat, agent: Note, o: Note)
    requires Formed(s) && i in s.turns
    ensures Follows(s, End(s, i, agent, o))
  {
    var s1 := EnsureAgentTerminal(s, i, agent);
    SameFollows(s, s1);
    TerminateFollows(s1, i, o);
    FollowsOn(s, s1, Terminate(s1, i, o));
  }

  lemma {:induction false} EvictTurnsFollows(s: Life)
    requires Formed(s)
    ensures Follows(s, EvictTurns(s))
    decreases |s.turns|
  {
    if |s.turns| > MAX_TURNS && s.turnOrder != [] {
      assert Obeys(s, TurnLaw);
      var s1 := End(s, s.turnOrder[0], StateLimit, StateLimit);
      EndForms(s, s.turnOrder[0], StateLimit, StateLimit);
      EndFollows(s, s.turnOrder[0], StateLimit, StateLimit);
      EvictTurnsFollows(s1);
      FollowsOn(s, s1, EvictTurns(s1));
    }
  }

  lemma ReplaceFollows(s: Life)
    requires Formed(s)
    ensures Follows(s, ReplaceCurrent(s))
  {
    var i := s.current;
    if i in s.turns {
      var s1 := Once(s, i, Interrupted, InterruptedByInput);
      SameForm(s, s1);
      SameFollows(s, s1);
      if AwaitsDelivery(s1.turns[i]) {
        SameFollows(s, ReplaceCurrent(s));
      } else {
        EndFollows(s1, i, InterruptedByInput, Replaced);
        FollowsOn(s, s1, ReplaceCurrent(s));
      }
    }
  }

  lemma NewTurnFollows(s: Life, streamID: string)
    ensures Follows(s, NewTurn(s, streamID))
  {
  }

  lemma StartTurnFollows(s: Life, streamID: string)
    requires Formed(s)
    ensures Follows(s, StartTurn(s, streamID))
  {
    var s1 := ReplaceCurrent(s);
    var s2 := NewTurn(s1, streamID);
    ReplaceForms(s);
    NewTurnForms(s1, streamID);
    ReplaceFollows(s);
    NewTurnFollows(s1, streamID);
    FollowsOn(s, s1, s2);
    EvictTurnsFollows(s2);
    FollowsOn(s, s2, EvictTurns(s2));
  }

  lemma {:induction false} EvictEpochsFollows(s: Life, owner: string)
    requires Formed(s)
    ensures Follows(s, EvictEpochs(s, owner))
    decreases |s.epochTurns|
  {
    if !(|s.epochTurns| < MAX_ROUTES || s.epochOrder == [] || Owned(s, owner).None?) {
      assert Obeys(s, EpochLaw);
      var i := s.epochTurns[s.epochOrder[0]];
      assert i in s.epochTurns.Values;
      var s1 := End(s, i, StateLimit, StateLimit);
      EndForms(s, i, StateLimit, StateLimit);
      EndFollows(s, i, StateLimit, StateLimit);
      EvictEpochsFollows(s1, owner);
      FollowsOn(s, s1, EvictEpochs(s1, owner));
    }
  }

  lemma BindFollows(s: Life, e: Epoch, streamID: string, i: nat)
    requires Formed(s) && Bounded(s) && |s.epochTurns| < MAX_ROUTES && i in s.turns && e !in s.epochTurns
    ensures Follows(s, BindRoute(BindEpoch(s, e, i), streamID, i))
  {
    BindEpochForms(s, e, i);
    BindRouteForms(BindEpoch(s, e, i), streamID, i);
  }

  lemma OutputTurnFollows(s: Life, c: Output)
    requires Formed(s) && Bounded(s)
    ensures Follows(s, OutputTurn(s, c).life)
  {
    if c.epoch.Some? && c.epoch.value !in s.epochTurns {
      var e := c.epoch.value;
      var s1 := EvictEpochs(s, e.owner);
      EvictEpochsForms(s, e.owner);
      EvictEpochsFollows(s, e.owner);
      var i := Owned(s1, e.owner);
      if i.Some? {
        BindFollows(s1, e, c.streamID, i.value);
        FollowsOn(s, s1, BindRoute(BindEpoch(s1, e, i.value), c.streamID, i.value));
      }
    }
  }

  /** A step that first finds the turn of an output chunk and then only records. */
  lemma RecordsFollow(s: Life, c: Output, s': Life)
    requires Formed(s) && Bounded(s) && s'.turns.Keys == OutputTurn(s, c).life.turns.Keys
    requires s' == OutputTurn(s, c).life.(turns := s'.turns, log := s'.log)
    ensures Follows(s, s')
  {
    OutputTurnFollows(s, c);
    SameFollows(OutputTurn(s, c).life, s');
    FollowsOn(s, OutputTurn(s, c).life, s');
  }

  lemma EndOutputFollows(s: Life, c: Output, i: nat)
    requires Formed(s) && i in s.turns
    ensures Follows(s, EndOutput(s, c, i))
  {
    var s1 := Finalize(s, i, c.outcome);
    var s2 := s1.(outputTurns := s1.outputTurns - {c.streamID});
    var o := if s2.turns[i].pending then Replaced else c.outcome;
    SameFollows(s, s1);
    assert Follows(s, s2);
    TerminateFollows(s2, i, o);
    FollowsOn(s, s2, Terminate(s2, i, o));
  }

  lemma DrainedFollows(s: Life, c: Output)
    requires Formed(s) && Bounded(s)
    ensures Follows(s, Step(s, Drain(c)))
  {
    OutputTurnForms(s, c);
    OutputTurnFollows(s, c);
    var f := OutputTurn(s, c);
    if c.epochEnd && f.turn.Some? {
      EndOutputFollows(f.life, c, f.turn.value);
      FollowsOn(s, f.life, EndOutput(f.life, c, f.turn.value));
    }
  }

  lemma {:induction false} EndAllFollows(s: Life, output: bool, o: Note)
    requires Formed(s)
    ensures Follows(s, EndAll(s, output, o))
    decreases |s.turns|
  {
    if s.turnOrder != [] {
      assert Obeys(s, TurnLaw);
      var i := s.turnOrder[0];
      var s1 := EnsureAgentTerminal(s, i, o);
      var s2 := if output then Finalize(s1, i, o) else s1;
      var s3 := EndOldest(s, output, o);
      SameFollows(s, s2);
      TerminateFollows(s2, i, o);
      FollowsOn(s, s2, s3);
      EndOldestForms(s, output, o);
      EndAllFollows(s3, output, o);
      FollowsOn(s, s3, EndAll(s3, output, o));
    }
  }

  lemma FinishFollows(s: Life, k: Component, o: Note)
    requires Formed(s) && Bounded(s)
    ensures Follows(s, Step(s, Finishes(k, o)))
  {
    var s1 := s.(finished := s.finished + {k});
    SameForm(s, s1);
    EndAllFollows(s1, k.AgentOutput?, o);
  }

  lemma InputFollows(s: Life, id: string, begins: bool, terminal: bool, o: Note)
    requires Formed(s) && Bounded(s)
    ensures Follows(s, Step(s, Input(id, begins, terminal, o)))
  {
    var s1 := if begins then StartTurn(s, id) else s;
    if begins {
      StartTurnFollows(s, id);
    }
    SameFollows(s1, Heard(s1, id, terminal, o));
    FollowsOn(s, s1, Heard(s1, id, terminal, o));
  }

  lemma MarksFollow(s: Life, id: string)
    requires Formed(s) && Bounded(s)
    ensures Follows(s, Step(s, InputPush(id))) && Follows(s, Step(s, TransformStart(id))) && Follows(s, Step(s, Interrupt))
  {
    SameFollows(s, ObserveInputPush(s, id));
    SameFollows(s, ObserveTransformStarted(s, id));
    SameFollows(s, ObserveInterrupt(s));
  }

  lemma DeliveredFollows(s: Life, c: Output, modal: bool)
    requires Formed(s) && Bounded(s)
    ensures Follows(s, Step(s, Deliver(c, modal)))
  {
    OutputTurnForms(s, c);
    RecordsFollow(s, c, ObserveDelivered(s, c, modal));
  }

  lemma ProducedFollows(s: Life, c: Output)
    requires Formed(s) && Bounded(s)
    ensures Follows(s, Step(s, Produce(c)))
  {
    OutputTurnForms(s, c);
    RecordsFollow(s, c, ObserveProduced(s, c));
  }

  lemma StepFollows(s: Life, e: Event)
    requires Formed(s) && Bounded(s)
    ensures Follows(s, Step(s, e))
  {
    match e
    case Input(id, begins, terminal, o) => InputFollows(s, id, begins, terminal, o);
    case InputPush(id) => MarksFollow(s, id);
    case TransformStart(id) => MarksFollow(s, id);
    case Interrupt => MarksFollow(s, "");
    case Deliver(c, modal) => DeliveredFollows(s, c, modal);
    case Produce(c) => ProducedFollows(s, c);
    case Drain(c) => DrainedFollows(s, c);
    case Finishes(k, o) => FinishFollows(s, k, o);
  }

  /** An epoch bound to a turn stays bound to it, over every run, for as long as the turn
      lives: no later stream takes its output over. */
  lemma {:induction false} EpochStays(es: seq<Event>, more: seq<Event>, e: Epoch)
    ensures e in Run(es).epochTurns ==>
      var i, s := Run(es).epochTurns[e], Run(es + more);
      (e in s.epochTurns && s.epochTurns[e] == i) || i !in s.turns
  {
    RunFollows(es, more);
  }

  lemma {:induction false} RunFollows(es: seq<Event>, more: seq<Event>)
    ensures Follows(Run(es), Run(es + more))
    decreases |more|
  {
    if more == [] {
      assert es + more == es;
    } else {
      var most, e := es + more[..|more| - 1], more[|more| - 1];
      RunFollows(es, more[..|more| - 1]);
      assert es + more == most + [e];
      RunExtends(most, e);
      StepFollows(Run(most), e);
      FollowsOn(Run(es), Run(most), Run(es + more));
    }
  }

  // -------------------------------------------------------------------------- how turns end

  /** Turn `i` ended in the step: it is released, and its story ends with output_terminal and
      turn_terminal. A turn that a newer input replaced ends as replaced. */
  ghost predicate OutputDone(s: Life, s': Life, i: nat, o: Note) {
    && i in s.turns && Terminated(s', i) && s'.turns.Keys == s.turns.Keys - {i}
    && Of(s'.log, i) == Of(s.log, i) + [OutputTerminal] + [TurnTerminal]
    && s'.log != [] && s'.log[|s'.log| - 1] == Record(i, TurnTerminal, if s.turns[i].pending then Replaced else o)
  }

  lemma EndOutputStory(s: Life, c: Output, i: nat)
    requires Formed(s) && i in s.turns && OutputTerminal !in s.turns[i].seen
    ensures OutputDone(s, EndOutput(s, c, i), i, c.outcome)
  {
    assert Obeys(s, TurnLaw);
    var s1 := Put(s, i, s.turns[i].(outputTerminal := true));
    var s2 := Finalize(s, i, c.outcome);
    assert s2.log == Say(s1, i, OutputTerminal, c.outcome).log;
    Tell(s1, i, OutputTerminal, c.outcome);
    Tell(s2, i, TurnTerminal, if s.turns[i].pending then Replaced else c.outcome);
  }

  /** The current turn has told of its interruption after a new BOS. */
  lemma BosInterrupts(s: Life)
    requires Sound(s) && s.current in s.turns
    ensures Interrupted in Of(ReplaceCurrent(s).log, s.current)
  {
    var i := s.current;
    var s1 := Once(s, i, Interrupted, InterruptedByInput);
    OnceTells(s, i, Interrupted, InterruptedByInput);
    assert TurnTold(s1, i) && Interrupted in s1.turns[i].seen;
    StoryGrows(s1.log, ReplaceCurrent(s).log, i);
  }

  /** A new BOS and the current turn: while the agent may still deliver for it, it stays live and
      is marked replaced; otherwise it ends at once, as replaced. */
  lemma BosReplaces(s: Life)
    requires Formed(s) && s.current in s.turns
    ensures var i, s' := s.current, ReplaceCurrent(s);
      && (AwaitsDelivery(s.turns[i]) ==> i in s'.turns && s'.turns[i].pending && s'.turns.Keys == s.turns.Keys)
      && (!AwaitsDelivery(s.turns[i]) ==>
            Terminated(s', i) && s'.current == 0 && s'.log[|s'.log| - 1] == Record(i, TurnTerminal, Replaced))
  {
    assert Obeys(s, TurnLaw);
  }
}
