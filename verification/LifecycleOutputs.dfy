/** The end of a turn's output ends the turn in the same step, so that no live turn has ended
    its output (pkgs/gizclaw/peer_stream_lifecycle.go). */
module LifecycleOutputs {
  import opened Options
  import opened Collections
  import opened Lifecycles
  import opened LifecycleRuns
  import opened LifecycleEpochs

  predicate Unended(t: Turn) { !t.outputTerminal && OutputTerminal !in t.seen }

  /** No live turn, except perhaps `but`, has ended its output. */
  ghost predicate AllUnended(s: Life, but: nat) { forall i :: i in s.turns && i != but ==> Unended(s.turns[i]) }

  /** Turns are numbered from 1, so 0 excepts none. */
  ghost predicate Delivering(s: Life) { 0 !in s.turns && AllUnended(s, 0) }

  lemma PutUnended(s: Life, i: nat, t: Turn)
    requires Delivering(s) && i in s.turns && Unended(t)
    ensures Delivering(Put(s, i, t))
  {
  }

  lemma OnceUnended(s: Life, i: nat, stage: Stage, o: Note)
    requires Delivering(s) && i in s.turns && stage != OutputTerminal
    ensures Delivering(Once(s, i, stage, o))
  {
  }

  lemma MarkUnended(s: Life, i: nat, t: Turn, stage: Stage, o: Note)
    requires Delivering(s) && i in s.turns && Unended(t) && stage != OutputTerminal
    ensures Delivering(Once(Put(s, i, t), i, stage, o))
  {
    PutUnended(s, i, t);
    OnceUnended(Put(s, i, t), i, stage, o);
  }

  lemma EnsureUnended(s: Life, i: nat, o: Note)
    requires Delivering(s) && i in s.turns
    ensures Delivering(EnsureAgentTerminal(s, i, o))
  {
    if !s.turns[i].agentTerminal {
      MarkUnended(s, i, s.turns[i].(agentTerminal := true), AgentTerminal, o);
    }
  }

  /** Terminating the one turn that has ended its output leaves none. */
  lemma TerminateUnended(s: Life, i: nat, o: Note)
    requires 0 !in s.turns && AllUnended(s, i)
    ensures Delivering(Terminate(s, i, o))
  {
  }

  lemma EndUnended(s: Life, i: nat, agent: Note, o: Note)
    requires Delivering(s) && i in s.turns
    ensures Delivering(End(s, i, agent, o))
  {
    EnsureUnended(s, i, agent);
    TerminateUnended(EnsureAgentTerminal(s, i, agent), i, o);
  }

  lemma FinalizeUnended(s: Life, i: nat, o: Note)
    requires Delivering(s) && i in s.turns
    ensures 0 !in Finalize(s, i, o).turns && AllUnended(Finalize(s, i, o), i)
  {
  }

  lemma {:induction false} EvictTurnsUnended(s: Life)
    requires Formed(s) && Delivering(s)
    ensures Delivering(EvictTurns(s))
    decreases |s.turns|
  {
    if |s.turns| > MAX_TURNS && s.turnOrder != [] {
      assert Obeys(s, TurnLaw);
      EndForms(s, s.turnOrder[0], StateLimit, StateLimit);
      EndUnended(s, s.turnOrder[0], StateLimit, StateLimit);
      EvictTurnsUnended(End(s, s.turnOrder[0], StateLimit, StateLimit));
    }
  }

  lemma ReplaceUnended(s: Life)
    requires Delivering(s)
    ensures Delivering(ReplaceCurrent(s))
  {
    var i := s.current;
    if i in s.turns {
      var s1 := Once(s, i, Interrupted, InterruptedByInput);
      OnceUnended(s, i, Interrupted, InterruptedByInput);
      if AwaitsDelivery(s1.turns[i]) {
        PutUnended(s1, i, s1.turns[i].(pending := true));
      } else {
        EndUnended(s1, i, InterruptedByInput, Replaced);
      }
    }
  }

  lemma NewTurnUnended(s: Life, streamID: string)
    requires Delivering(s)
    ensures Delivering(NewTurn(s, streamID))
  {
  }

  lemma StartTurnUnended(s: Life, streamID: string)
    requires Formed(s) && Delivering(s)
    ensures Delivering(StartTurn(s, streamID))
  {
    ReplaceForms(s);
    NewTurnForms(ReplaceCurrent(s), streamID);
    ReplaceUnended(s);
    NewTurnUnended(ReplaceCurrent(s), streamID);
    EvictTurnsUnended(NewTurn(ReplaceCurrent(s), streamID));
  }

  lemma {:induction false} EvictEpochsUnended(s: Life, owner: string)
    requires Formed(s) && Delivering(s)
    ensures Delivering(EvictEpochs(s, owner))
    decreases |s.epochTurns|
  {
    if !(|s.epochTurns| < MAX_ROUTES || s.epochOrder == [] || Owned(s, owner).None?) {
      assert Obeys(s, EpochLaw);
      var i := s.epochTurns[s.epochOrder[0]];
      assert i in s.epochTurns.Values;
      EndForms(s, i, StateLimit, StateLimit);
      EndUnended(s, i, StateLimit, StateLimit);
      EvictEpochsUnended(End(s, i, StateLimit, StateLimit), owner);
    }
  }

  lemma OutputTurnUnended(s: Life, c: Output)
    requires Formed(s) && Bounded(s) && Delivering(s)
    ensures Delivering(OutputTurn(s, c).life)
  {
    if c.epoch.Some? && c.epoch.value !in s.epochTurns {
      var e := c.epoch.value;
      var s1 := EvictEpochs(s, e.owner);
      EvictEpochsForms(s, e.owner);
      EvictEpochsUnended(s, e.owner);
      var i := Owned(s1, e.owner);
      if i.Some? {
        BindForms(s1, e, c.streamID, i.value);
      }
    }
  }

  lemma {:induction false} EndAllUnended(s: Life, output: bool, o: Note)
    requires Formed(s) && Delivering(s)
    ensures Delivering(EndAll(s, output, o))
    decreases |s.turns|
  {
    if s.turnOrder != [] {
      assert Obeys(s, TurnLaw);
      var i := s.turnOrder[0];
      var s1 := EnsureAgentTerminal(s, i, o);
      EnsureUnended(s, i, o);
      FinalizeUnended(s1, i, o);
      TerminateUnended(if output then Finalize(s1, i, o) else s1, i, o);
      EndOldestForms(s, output, o);
      EndAllUnended(EndOldest(s, output, o), output, o);
    }
  }

  // ---------------------------------------------------------------------------------- steps

  lemma HeardUnended(s: Life, id: string, terminal: bool, o: Note)
    requires Delivering(s)
    ensures Delivering(Heard(s, id, terminal, o))
  {
    var i := InputTurn(s, id);
    if i.Some? {
      OnceUnended(s, i.value, InputFirst, Success);
      OnceUnended(Once(s, i.value, InputFirst, Success), i.value, InputTerminal, o);
    }
  }

  lemma InputUnended(s: Life, id: string, begins: bool, terminal: bool, o: Note)
    requires Formed(s) && Bounded(s) && Delivering(s)
    ensures Delivering(Step(s, Input(id, begins, terminal, o)))
  {
    if begins {
      StartTurnUnended(s, id);
    }
    HeardUnended(if begins then StartTurn(s, id) else s, id, terminal, o);
  }

  lemma InputPushUnended(s: Life, id: string)
    requires Formed(s) && Bounded(s) && Delivering(s)
    ensures Delivering(Step(s, InputPush(id)))
  {
    var i := InputTurn(s, id);
    if i.Some? {
      MarkUnended(s, i.value, s.turns[i.value].(inputPushed := true), InputPushed, Success);
    }
  }

  lemma TransformUnended(s: Life, id: string)
    requires Formed(s) && Bounded(s) && Delivering(s)
    ensures Delivering(Step(s, TransformStart(id)))
  {
    var i := InputTurn(s, id);
    if i.Some? {
      MarkUnended(s, i.value, s.turns[i.value].(transformStarted := true), TransformStarted, Success);
    }
  }

  lemma InterruptUnended(s: Life)
    requires Formed(s) && Bounded(s) && Delivering(s)
    ensures Delivering(Step(s, Interrupt))
  {
    if s.current in s.turns {
      OnceUnended(s, s.current, Interrupted, ControlInterrupt);
    }
  }

  lemma DeliveredUnended(s: Life, c: Output, modal: bool)
    requires Formed(s) && Bounded(s) && Delivering(s)
    ensures Delivering(Step(s, Deliver(c, modal)))
  {
    OutputTurnForms(s, c);
    OutputTurnUnended(s, c);
    var f := OutputTurn(s, c);
    if f.turn.Some? {
      OnceUnended(f.life, f.turn.value, OutputFirst, Success);
      OnceUnended(Once(f.life, f.turn.value, OutputFirst, Success), f.turn.value, Delivered, Success);
    }
  }

  lemma MakeUnended(s: Life, i: nat, c: Output)
    requires Delivering(s) && i in s.turns
    ensures Delivering(Make(s, i, c))
  {
    var s1 := if c.observable then Once(s, i, Produced, Success) else s;
    OnceUnended(s, i, Produced, Success);
    var s2 := Put(s1, i, s1.turns[i].(epochBound := true));
    PutUnended(s1, i, s1.turns[i].(epochBound := true));
    EnsureUnended(s2, i, c.outcome);
  }

  lemma ProducedUnended(s: Life, c: Output)
    requires Formed(s) && Bounded(s) && Delivering(s)
    ensures Delivering(Step(s, Produce(c)))
  {
    OutputTurnForms(s, c);
    OutputTurnUnended(s, c);
    var f := OutputTurn(s, c);
    if f.turn.Some? {
      MakeUnended(f.life, f.turn.value, c);
    }
  }

  lemma EndOutputUnended(s: Life, c: Output, i: nat)
    requires Delivering(s) && i in s.turns
    ensures Delivering(EndOutput(s, c, i))
  {
    var s1 := Finalize(s, i, c.outcome);
    var s2 := s1.(outputTurns := s1.outputTurns - {c.streamID});
    FinalizeUnended(s, i, c.outcome);
    TerminateUnended(s2, i, if s2.turns[i].pending then Replaced else c.outcome);
  }

  lemma DrainedUnended(s: Life, c: Output)
    requires Formed(s) && Bounded(s) && Delivering(s)
    ensures Delivering(Step(s, Drain(c)))
  {
    OutputTurnForms(s, c);
    OutputTurnUnended(s, c);
    var f := OutputTurn(s, c);
    if f.turn.Some? {
      EndOutputUnended(f.life, c, f.turn.value);
    }
  }

  lemma FinishedUnended(s: Life, k: Component, o: Note)
    requires Formed(s) && Delivering(s)
    ensures Delivering(Finish(s, k, o))
  {
    if k !in s.finished {
      var s1 := s.(finished := s.finished + {k});
      SameForm(s, s1);
      EndAllUnended(s1, k.AgentOutput?, o);
    }
  }

  lemma FinishUnended(s: Life, k: Component, o: Note)
    requires Formed(s) && Bounded(s) && Delivering(s)
    ensures Delivering(Step(s, Finishes(k, o)))
  {
    FinishedUnended(s, k, o);
  }

  lemma StepUnended(s: Life, e: Event)
    requires Formed(s) && Bounded(s) && Delivering(s)
    ensures Delivering(Step(s, e))
  {
    match e
    case Input(id, begins, terminal, o) => InputUnended(s, id, begins, terminal, o);
    case InputPush(id) => InputPushUnended(s, id);
    case TransformStart(id) => TransformUnended(s, id);
    case Interrupt => InterruptUnended(s);
    case Deliver(c, modal) => DeliveredUnended(s, c, modal);
    case Produce(c) => ProducedUnended(s, c);
    case Drain(c) => DrainedUnended(s, c);
    case Finishes(k, o) => FinishUnended(s, k, o);
  }

  /** In every reachable state no live turn has ended its output: the guard that
      observeOutputDrained puts before ending it always holds. */
  lemma {:induction false} LiveTurnsDeliver(es: seq<Event>)
    ensures Delivering(Run(es))
  {
    if es != [] {
      LiveTurnsDeliver(es[..|es| - 1]);
      StepUnended(Run(es[..|es| - 1]), es[|es| - 1]);
    }
  }

  /** `c` ends an epoch of live turn `i`, whose agent has ended. */
  ghost predicate EndsEpochOf(s: Life, c: Output, i: nat) {
    && c.epochEnd && c.epoch.Some? && c.epoch.value in s.epochTurns && s.epochTurns[c.epoch.value] == i
    && i in s.turns && s.turns[i].agentTerminal
  }

  lemma DrainStep(s: Life, c: Output, i: nat)
    requires Formed(s) && Bounded(s) && Delivering(s) && EndsEpochOf(s, c, i)
    ensures OutputDone(s, Step(s, Drain(c)), i, c.outcome)
  {
    DrainIsStep(s, c);
    assert ObserveDrained(s, c) == EndOutput(s, c, i);
    EndOutputStory(s, c, i);
  }

  /** The end of an epoch whose agent has ended, once delivered, ends its turn, in every
      reachable state. */
  lemma DrainEndsTurn(es: seq<Event>, c: Output, i: nat)
    ensures EndsEpochOf(Run(es), c, i) ==> OutputDone(Run(es), Run(es + [Drain(c)]), i, c.outcome)
  {
    if EndsEpochOf(Run(es), c, i) {
      LiveTurnsDeliver(es);
      DrainStep(Run(es), c, i);
      RunExtends(es, Drain(c));
    }
  }
}
