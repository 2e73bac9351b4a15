/** What holds over every run of the peer stream lifecycle: the indexes stay linked and
    bounded, every turn tells its story once and in order, and turns are conserved. */
module LifecycleRuns {
  import opened Options
  import opened Collections
  import opened Lifecycles

  datatype Event =
    | Input(streamID: string, begins: bool, terminal: bool, outcome: Note)
    | InputPush(streamID: string)
    | TransformStart(streamID: string)
    | Interrupt
    | Deliver(chunk: Output, modal: bool)
    | Produce(chunk: Output)
    | Drain(chunk: Output)
    | Finishes(component: Component, outcome: Note)

  function Step(s: Life, e: Event): (s': Life)
    requires Formed(s) && Bounded(s)
    ensures s.log <= s'.log
  {
    match e
    case Input(id, begins, terminal, o) => ObserveInput(s, id, begins, terminal, o)
    case InputPush(id) => ObserveInputPush(s, id)
    case TransformStart(id) => ObserveTransformStarted(s, id)
    case Interrupt => ObserveInterrupt(s)
    case Deliver(c, modal) => ObserveDelivered(s, c, modal)
    case Produce(c) => ObserveProduced(s, c)
    case Drain(c) => ObserveDrained(s, c)
    case Finishes(k, o) => Finish(s, k, o)
  }

  // ---------------------------------------------------------------------- form and bounds

  lemma SameBounds(s: Life, s': Life)
    requires Formed(s) && Bounded(s)
    requires s'.turns.Keys == s.turns.Keys && s' == s.(turns := s'.turns, log := s'.log)
    ensures Formed(s') && Bounded(s')
  {
    SameForm(s, s');
  }

  lemma InputForms(s: Life, id: string, begins: bool, terminal: bool, o: Note)
    requires Formed(s) && Bounded(s)
    ensures var s' := Step(s, Input(id, begins, terminal, o)); Formed(s') && Bounded(s')
  {
    var s1 := if begins then StartTurn(s, id) else s;
    if begins {
      StartTurnForms(s, id);
    }
    SameBounds(s1, ObserveInput(s, id, begins, terminal, o));
  }

  lemma DeliveredForms(s: Life, c: Output, modal: bool)
    requires Formed(s) && Bounded(s)
    ensures Formed(Step(s, Deliver(c, modal))) && Bounded(Step(s, Deliver(c, modal)))
  {
    OutputTurnForms(s, c);
    SameBounds(OutputTurn(s, c).life, ObserveDelivered(s, c, modal));
  }

  lemma ProducedForms(s: Life, c: Output)
    requires Formed(s) && Bounded(s)
    ensures Formed(Step(s, Produce(c))) && Bounded(Step(s, Produce(c)))
  {
    OutputTurnForms(s, c);
    SameBounds(OutputTurn(s, c).life, ObserveProduced(s, c));
  }

  lemma InputPushForms(s: Life, id: string)
    requires Formed(s) && Bounded(s)
    ensures Formed(Step(s, InputPush(id))) && Bounded(Step(s, InputPush(id)))
  {
    SameBounds(s, ObserveInputPush(s, id));
  }

  lemma TransformForms(s: Life, id: string)
    requires Formed(s) && Bounded(s)
    ensures Formed(Step(s, TransformStart(id))) && Bounded(Step(s, TransformStart(id)))
  {
    SameBounds(s, ObserveTransformStarted(s, id));
  }

  lemma InterruptForms(s: Life)
    requires Formed(s) && Bounded(s)
    ensures Formed(Step(s, Interrupt)) && Bounded(Step(s, Interrupt))
  {
    SameBounds(s, ObserveInterrupt(s));
  }

  lemma DrainedForms(s: Life, c: Output)
    requires Formed(s) && Bounded(s)
    ensures Formed(ObserveDrained(s, c)) && Bounded(ObserveDrained(s, c))
  {
    OutputTurnForms(s, c);
    var f := OutputTurn(s, c);
    if f.turn.Some? {
      EndOutputForms(f.life, c, f.turn.value);
    }
  }

  lemma DrainForms(s: Life, c: Output)
    requires Formed(s) && Bounded(s)
    ensures Formed(Step(s, Drain(c))) && Bounded(Step(s, Drain(c)))
  {
    DrainedForms(s, c);
  }

  lemma FinishedForms(s: Life, k: Component, o: Note)
    requires Formed(s) && Bounded(s)
    ensures var s' := Finish(s, k, o);
      && Formed(s') && Bounded(s') && s'.nextIndex == s.nextIndex
      && (k !in s.finished && !k.OtherComponent? ==> s'.turns == map[])
  {
    if k !in s.finished {
      var s1 := s.(finished := s.finished + {k});
      SameForm(s, s1);
      EndAllForms(s1, k.AgentOutput?, o);
    }
  }

  lemma FinishForms(s: Life, k: Component, o: Note)
    requires Formed(s) && Bounded(s)
    ensures var s' := Step(s, Finishes(k, o));
      && Formed(s') && Bounded(s') && s'.nextIndex == s.nextIndex
      && (k !in s.finished && !k.OtherComponent? ==> s'.turns == map[])
  {
    FinishIsStep(s, k, o);
    FinishedForms(s, k, o);
  }

  lemma FinishIsStep(s: Life, k: Component, o: Note)
    requires Formed(s) && Bounded(s)
    ensures Step(s, Finishes(k, o)) == Finish(s, k, o)
  {
  }

  lemma StepForms(s: Life, e: Event)
    requires Formed(s) && Bounded(s)
    ensures Formed(Step(s, e)) && Bounded(Step(s, e))
  {
    match e
    case Input(id, begins, terminal, o) => InputForms(s, id, begins, terminal, o);
    case InputPush(id) => InputPushForms(s, id);
    case TransformStart(id) => TransformForms(s, id);
    case Interrupt => InterruptForms(s);
    case Deliver(c, modal) => DeliveredForms(s, c, modal);
    case Produce(c) => ProducedForms(s, c);
    case Drain(c) => DrainForms(s, c);
    case Finishes(k, o) => FinishForms(s, k, o);
  }

  // ------------------------------------------------------------------------------ records

  /** The stages that the log tells of turn `i`, in order. */
  function Of(log: seq<Record>, i: nat): (h: seq<Stage>) {
    if log == [] then []
    else
      var h, r := Of(log[..|log| - 1], i), log[|log| - 1];
      if r.turn == i then h + [r.stage] else h
  }

  function Count(log: seq<Record>, stage: Stage): (n: nat) {
    if log == [] then 0
    else Count(log[..|log| - 1], stage) + if log[|log| - 1].stage == stage then 1 else 0
  }

  lemma Tell(s: Life, i: nat, stage: Stage, o: Note)
    ensures forall j :: Of(Say(s, i, stage, o).log, j) == if j == i then Of(s.log, j) + [stage] else Of(s.log, j)
    ensures forall x :: Count(Say(s, i, stage, o).log, x) == Count(s.log, x) + if x == stage then 1 else 0
  {
    var r := Record(i, stage, o);
    assert (s.log + [r])[..|s.log + [r]| - 1] == s.log && (s.log + [r])[|s.log + [r]| - 1] == r;
  }

  /** The story of a live turn: it began with turn_started, tells what was seen, and has not
      ended. */
  ghost predicate Open(h: seq<Stage>, t: Turn) {
    && h != [] && h[0] == TurnStarted && Distinct(h)
    && (forall x :: x in h <==> x in t.seen)
    && TurnTerminal !in t.seen && (AgentTerminal in t.seen <==> t.agentTerminal)
  }

  /** The story of a terminated turn: one turn_started first, one turn_terminal last and one
      agent_terminal between them. */
  ghost predicate Closed(h: seq<Stage>) {
    && |h| >= 3 && h[0] == TurnStarted && h[|h| - 1] == TurnTerminal && Distinct(h) && AgentTerminal in h
  }

  ghost predicate TurnTold(s: Life, i: nat) {
    if i in s.turns then Open(Of(s.log, i), s.turns[i])
    else if 1 <= i <= s.nextIndex then Closed(Of(s.log, i))
    else Of(s.log, i) == []
  }

  ghost predicate Told(s: Life) { forall i: nat :: TurnTold(s, i) }

  /** Turns started are turns live plus turns terminated. */
  ghost predicate Conserved(s: Life) {
    Count(s.log, TurnStarted) == s.nextIndex == |s.turns| + Count(s.log, TurnTerminal)
  }

  ghost predicate Sound(s: Life) { Formed(s) && Told(s) && Conserved(s) }

  /** Setting flags of a turn other than agentTerminal. */
  lemma PutTells(s: Life, i: nat, t: Turn)
    requires Sound(s) && i in s.turns && t.seen == s.turns[i].seen && t.agentTerminal == s.turns[i].agentTerminal
    ensures Sound(Put(s, i, t))
  {
    var s' := Put(s, i, t);
    SameForm(s, s');
    forall j: nat ensures TurnTold(s', j) {
      assert TurnTold(s, j);
    }
  }

  /** One more stage of a live turn. */
  lemma StageTells(s: Life, i: nat, stage: Stage, o: Note, t: Turn, s': Life)
    requires Sound(s) && i in s.turns && stage !in s.turns[i].seen && stage != TurnTerminal
    requires t.seen == s.turns[i].seen + {stage} && (AgentTerminal in t.seen <==> t.agentTerminal)
    requires s' == Say(Put(s, i, t), i, stage, o)
    ensures Sound(s')
  {
    SameForm(s, s');
    StageTold(s, i, stage, o, t, s');
    Tell(Put(s, i, t), i, stage, o);
    assert TurnTold(s, i);
  }

  lemma StageTold(s: Life, i: nat, stage: Stage, o: Note, t: Turn, s': Life)
    requires Told(s) && i in s.turns && stage !in s.turns[i].seen && stage != TurnTerminal
    requires t.seen == s.turns[i].seen + {stage} && (AgentTerminal in t.seen <==> t.agentTerminal)
    requires s' == Say(Put(s, i, t), i, stage, o)
    ensures Told(s')
  {
    Tell(Put(s, i, t), i, stage, o);
    assert TurnTold(s, i);
    AppendDistinct(Of(s.log, i), stage);
    forall j: nat ensures TurnTold(s', j) {
      assert TurnTold(s, j);
    }
  }

  lemma OnceTells(s: Life, i: nat, stage: Stage, o: Note)
    requires Sound(s) && i in s.turns && stage != AgentTerminal && stage != TurnTerminal
    ensures Sound(Once(s, i, stage, o))
  {
    assert TurnTold(s, i);
    if stage !in s.turns[i].seen {
      StageTells(s, i, stage, o, s.turns[i].(seen := s.turns[i].seen + {stage}), Once(s, i, stage, o));
    }
  }

  lemma EnsureTells(s: Life, i: nat, o: Note)
    requires Sound(s) && i in s.turns
    ensures var s' := EnsureAgentTerminal(s, i, o); Sound(s') && s'.turns[i].agentTerminal
  {
    assert TurnTold(s, i);
    if !s.turns[i].agentTerminal {
      var t := s.turns[i].(agentTerminal := true, seen := s.turns[i].seen + {AgentTerminal});
      EnsureSays(s, i, o, t);
      StageTells(s, i, AgentTerminal, o, t, EnsureAgentTerminal(s, i, o));
    }
  }

  lemma EnsureSays(s: Life, i: nat, o: Note, t: Turn)
    requires i in s.turns && !s.turns[i].agentTerminal && AgentTerminal !in s.turns[i].seen
    requires t == s.turns[i].(agentTerminal := true, seen := s.turns[i].seen + {AgentTerminal})
    ensures EnsureAgentTerminal(s, i, o) == Say(Put(s, i, t), i, AgentTerminal, o)
  {
  }

  lemma TerminateTells(s: Life, i: nat, o: Note)
    requires Sound(s) && i in s.turns && s.turns[i].agentTerminal
    ensures Sound(Terminate(s, i, o))
  {
    assert Obeys(s, TurnLaw);
    var s' := Terminate(s, i, o);
    TerminateForms(s, i, o);
    TerminateTold(s, i, o, s');
    Tell(s, i, TurnTerminal, o);
  }

  lemma TerminateTold(s: Life, i: nat, o: Note, s': Life)
    requires Told(s) && i in s.turns && s.turns[i].agentTerminal && 1 <= i <= s.nextIndex
    requires s'.turns == s.turns - {i} && s'.log == Say(s, i, TurnTerminal, o).log && s'.nextIndex == s.nextIndex
    ensures Told(s')
  {
    Tell(s, i, TurnTerminal, o);
    assert TurnTold(s, i);
    AppendDistinct(Of(s.log, i), TurnTerminal);
    forall j: nat ensures TurnTold(s', j) {
      assert TurnTold(s, j);
    }
  }

  lemma EndTells(s: Life, i: nat, agent: Note, o: Note)
    requires Sound(s) && i in s.turns
    ensures Sound(End(s, i, agent, o))
  {
    EnsureTells(s, i, agent);
    TerminateTells(EnsureAgentTerminal(s, i, agent), i, o);
  }

  lemma NewTurnTells(s: Life, streamID: string)
    requires Sound(s)
    ensures Sound(NewTurn(s, streamID))
  {
    var s' := NewTurn(s, streamID);
    FreshIndex(s);
    NewTurnForms(s, streamID);
    NewTurnTold(s, s');
    Tell(s, s'.nextIndex, TurnStarted, Accepted);
  }

  lemma NewTurnTold(s: Life, s': Life)
    requires Told(s) && s.nextIndex + 1 !in s.turns && s'.nextIndex == s.nextIndex + 1
    requires s'.turns == s.turns[s'.nextIndex := Turn({TurnStarted}, false, false, false, false, false, false)]
    requires s'.log == Say(s, s'.nextIndex, TurnStarted, Accepted).log
    ensures Told(s')
  {
    Tell(s, s'.nextIndex, TurnStarted, Accepted);
    forall j: nat ensures TurnTold(s', j) {
      assert TurnTold(s, j);
    }
  }

  lemma {:induction false} EvictTurnsTells(s: Life)
    requires Sound(s)
    ensures Sound(EvictTurns(s))
    decreases |s.turns|
  {
    assert Obeys(s, TurnLaw);
    if |s.turns| > MAX_TURNS && s.turnOrder != [] {
      EndForms(s, s.turnOrder[0], StateLimit, StateLimit);
      EndTells(s, s.turnOrder[0], StateLimit, StateLimit);
      EvictTurnsTells(End(s, s.turnOrder[0], StateLimit, StateLimit));
    }
  }

  lemma StartTurnTells(s: Life, streamID: string)
    requires Sound(s)
    ensures Sound(StartTurn(s, streamID))
  {
    ReplaceTells(s);
    NewTurnTells(ReplaceCurrent(s), streamID);
    EvictTurnsTells(NewTurn(ReplaceCurrent(s), streamID));
  }

  lemma ReplaceTells(s: Life)
    requires Sound(s)
    ensures Sound(ReplaceCurrent(s))
  {
    var i := s.current;
    if i in s.turns {
      var s1 := Once(s, i, Interrupted, InterruptedByInput);
      OnceTells(s, i, Interrupted, InterruptedByInput);
      if AwaitsDelivery(s1.turns[i]) {
        PutTells(s1, i, s1.turns[i].(pending := true));
      } else {
        EndTells(s1, i, InterruptedByInput, Replaced);
      }
    }
  }

  lemma {:induction false} EvictEpochsTells(s: Life, owner: string)
    requires Sound(s)
    ensures Sound(EvictEpochs(s, owner))
    decreases |s.epochTurns|
  {
    assert Obeys(s, EpochLaw);
    if !(|s.epochTurns| < MAX_ROUTES || s.epochOrder == [] || Owned(s, owner).None?) {
      var i := s.epochTurns[s.epochOrder[0]];
      assert i in s.epochTurns.Values;
      EndForms(s, i, StateLimit, StateLimit);
      EndTells(s, i, StateLimit, StateLimit);
      EvictEpochsTells(End(s, i, StateLimit, StateLimit), owner);
    }
  }

  /** The story depends on the turns, the turn counter and the log only. */
  lemma SameTold(s: Life, s': Life)
    requires Sound(s) && Formed(s') && s'.turns == s.turns && s'.log == s.log && s'.nextIndex == s.nextIndex
    ensures Sound(s')
  {
    forall j: nat ensures TurnTold(s', j) {
      assert TurnTold(s, j);
    }
  }

  lemma OutputTurnTells(s: Life, c: Output)
    requires Sound(s) && Bounded(s)
    ensures Sound(OutputTurn(s, c).life)
  {
    if c.epoch.Some? && c.epoch.value !in s.epochTurns {
      var e := c.epoch.value;
      var s1 := EvictEpochs(s, e.owner);
      EvictEpochsForms(s, e.owner);
      EvictEpochsTells(s, e.owner);
      var i := Owned(s1, e.owner);
      if i.Some? {
        BindForms(s1, e, c.streamID, i.value);
        SameTold(s1, BindRoute(BindEpoch(s1, e, i.value), c.streamID, i.value));
      }
    }
  }

  // --------------------------------------------------------------------------------- steps

  lemma InputTells(s: Life, id: string, begins: bool, terminal: bool, o: Note)
    requires Sound(s) && Bounded(s)
    ensures Sound(Step(s, Input(id, begins, terminal, o)))
  {
    var s1 := if begins then StartTurn(s, id) else s;
    if begins {
      StartTurnTells(s, id);
    }
    HeardTells(s1, id, terminal, o);
  }

  lemma HeardTells(s: Life, id: string, terminal: bool, o: Note)
    requires Sound(s)
    ensures Sound(Heard(s, id, terminal, o))
  {
    var i := InputTurn(s, id);
    if i.Some? {
      HearTells(s, i.value, terminal, o);
    }
  }

  lemma HearTells(s: Life, i: nat, terminal: bool, o: Note)
    requires Sound(s) && i in s.turns
    ensures Sound(Hear(s, i, terminal, o))
  {
    OnceTells(s, i, InputFirst, Success);
    if terminal {
      OnceTells(Once(s, i, InputFirst, Success), i, InputTerminal, o);
    }
  }

  /** Set flags, then record a stage once. */
  lemma MarkTells(s: Life, i: nat, t: Turn, stage: Stage, o: Note)
    requires Sound(s) && i in s.turns && t.seen == s.turns[i].seen && t.agentTerminal == s.turns[i].agentTerminal
    requires stage != AgentTerminal && stage != TurnTerminal
    ensures Sound(Once(Put(s, i, t), i, stage, o))
  {
    PutTells(s, i, t);
    OnceTells(Put(s, i, t), i, stage, o);
  }

  lemma InputPushTells(s: Life, id: string)
    requires Sound(s) && Bounded(s)
    ensures Sound(Step(s, InputPush(id)))
  {
    var i := InputTurn(s, id);
    if i.Some? {
      MarkTells(s, i.value, s.turns[i.value].(inputPushed := true), InputPushed, Success);
    }
  }

  lemma TransformTells(s: Life, id: string)
    requires Sound(s) && Bounded(s)
    ensures Sound(Step(s, TransformStart(id)))
  {
    var i := InputTurn(s, id);
    if i.Some? {
      MarkTells(s, i.value, s.turns[i.value].(transformStarted := true), TransformStarted, Success);
    }
  }

  lemma InterruptTells(s: Life)
    requires Sound(s) && Bounded(s)
    ensures Sound(Step(s, Interrupt))
  {
    if s.current in s.turns {
      OnceTells(s, s.current, Interrupted, ControlInterrupt);
    }
  }

  lemma DeliveredTells(s: Life, c: Output, modal: bool)
    requires Sound(s) && Bounded(s)
    ensures Sound(Step(s, Deliver(c, modal)))
  {
    OutputTurnForms(s, c);
    OutputTurnTells(s, c);
    var f := OutputTurn(s, c);
    if f.turn.Some? {
      HandTells(f.life, f.turn.value, c.observable && modal);
    }
  }

  lemma HandTells(s: Life, i: nat, modal: bool)
    requires Sound(s) && i in s.turns
    ensures Sound(Hand(s, i, modal))
  {
    OnceTells(s, i, OutputFirst, Success);
    if modal {
      OnceTells(Once(s, i, OutputFirst, Success), i, Delivered, Success);
    }
  }

  lemma ProducedTells(s: Life, c: Output)
    requires Sound(s) && Bounded(s)
    ensures Sound(Step(s, Produce(c)))
  {
    OutputTurnForms(s, c);
    OutputTurnTells(s, c);
    var f := OutputTurn(s, c);
    if f.turn.Some? {
      MakeTells(f.life, f.turn.value, c);
    }
  }

  lemma MakeTells(s: Life, i: nat, c: Output)
    requires Sound(s) && i in s.turns
    ensures Sound(Make(s, i, c))
  {
    var s1 := if c.observable then Once(s, i, Produced, Success) else s;
    OnceTells(s, i, Produced, Success);
    if c.assistant {
      BindTells(s1, i, c);
    }
  }

  lemma BindTells(s: Life, i: nat, c: Output)
    requires Sound(s) && i in s.turns
    ensures var s1 := Put(s, i, s.turns[i].(epochBound := true));
      Sound(if c.epochEnd then EnsureAgentTerminal(s1, i, c.outcome) else s1)
  {
    PutTells(s, i, s.turns[i].(epochBound := true));
    EnsureTells(Put(s, i, s.turns[i].(epochBound := true)), i, c.outcome);
  }

  lemma FinalizeTells(s: Life, i: nat, o: Note)
    requires Sound(s) && i in s.turns
    ensures Sound(Finalize(s, i, o)) && Finalize(s, i, o).turns[i].agentTerminal == s.turns[i].agentTerminal
  {
    assert Finalize(s, i, o) == Once(Put(s, i, s.turns[i].(outputTerminal := true)), i, OutputTerminal, o);
    MarkTells(s, i, s.turns[i].(outputTerminal := true), OutputTerminal, o);
  }

  lemma EndOutputTells(s: Life, c: Output, i: nat)
    requires Sound(s) && i in s.turns && s.turns[i].agentTerminal
    ensures Sound(EndOutput(s, c, i))
  {
    var s1 := Finalize(s, i, c.outcome);
    FinalizeTells(s, i, c.outcome);
    var s2 := s1.(outputTurns := s1.outputTurns - {c.streamID});
    FewerRoutes(s1, s2);
    SameTold(s1, s2);
    TerminateTells(s2, i, if s2.turns[i].pending then Replaced else c.outcome);
  }

  lemma DrainSound(s: Life, c: Output)
    requires Sound(s) && Bounded(s)
    ensures Sound(ObserveDrained(s, c))
  {
    OutputTurnForms(s, c);
    OutputTurnTells(s, c);
    var f := OutputTurn(s, c);
    if f.turn.Some? && f.life.turns[f.turn.value].agentTerminal {
      EndOutputTells(f.life, c, f.turn.value);
    }
  }

  lemma DrainIsStep(s: Life, c: Output)
    requires Formed(s) && Bounded(s)
    ensures Step(s, Drain(c)) == ObserveDrained(s, c)
  {
  }

  lemma DrainedTells(s: Life, c: Output)
    requires Sound(s) && Bounded(s)
    ensures Sound(Step(s, Drain(c)))
  {
    DrainIsStep(s, c);
    DrainSound(s, c);
  }

  lemma EndOldestTells(s: Life, output: bool, o: Note)
    requires Sound(s) && s.turnOrder != []
    ensures Sound(EndOldest(s, output, o))
  {
    assert Obeys(s, TurnLaw);
    var i := s.turnOrder[0];
    var s1 := EnsureAgentTerminal(s, i, o);
    EnsureTells(s, i, o);
    var s2 := if output then Finalize(s1, i, o) else s1;
    if output {
      FinalizeTells(s1, i, o);
    }
    TerminateTells(s2, i, o);
  }

  lemma {:induction false} EndAllTells(s: Life, output: bool, o: Note)
    requires Sound(s)
    ensures Sound(EndAll(s, output, o))
    decreases |s.turns|
  {
    if s.turnOrder != [] {
      EndOldestForms(s, output, o);
      EndOldestTells(s, output, o);
      EndAllTells(EndOldest(s, output, o), output, o);
    }
  }

  lemma FinishedTells(s: Life, k: Component, o: Note)
    requires Sound(s)
    ensures Sound(Finish(s, k, o))
  {
    if k !in s.finished {
      var s1 := s.(finished := s.finished + {k});
      SameForm(s, s1);
      SameTold(s, s1);
      EndAllTells(s1, k.AgentOutput?, o);
    }
  }

  lemma FinishTells(s: Life, k: Component, o: Note)
    requires Sound(s) && Bounded(s)
    ensures Sound(Step(s, Finishes(k, o)))
  {
    FinishIsStep(s, k, o);
    FinishedTells(s, k, o);
  }

  lemma StepTells(s: Life, e: Event)
    requires Sound(s) && Bounded(s)
    ensures Sound(Step(s, e))
  {
    match e
    case Input(id, begins, terminal, o) => InputTells(s, id, begins, terminal, o);
    case InputPush(id) => InputPushTells(s, id);
    case TransformStart(id) => TransformTells(s, id);
    case Interrupt => InterruptTells(s);
    case Deliver(c, modal) => DeliveredTells(s, c, modal);
    case Produce(c) => ProducedTells(s, c);
    case Drain(c) => DrainedTells(s, c);
    case Finishes(k, o) => FinishTells(s, k, o);
  }

  // ---------------------------------------------------------------------------------- runs

  /** The state after a run. */
  function Run(es: seq<Event>): (s: Life)
    ensures Formed(s) && Bounded(s)
  {
    if es == [] then Start()
    else
      StepForms(Run(es[..|es| - 1]), es[|es| - 1]);
      Step(Run(es[..|es| - 1]), es[|es| - 1])
  }

  lemma {:induction false} RunSound(es: seq<Event>)
    ensures Sound(Run(es))
  {
    if es == [] {
      forall j: nat ensures TurnTold(Start(), j) {
      }
    } else {
      RunSound(es[..|es| - 1]);
      StepTells(Run(es[..|es| - 1]), es[|es| - 1]);
    }
  }

  /** In every reachable state: each of the four indexes holds at most 64 entries. */
  lemma RunBounded(es: seq<Event>)
    ensures var s := Run(es);
      |s.turns| <= 64 && |s.inputTurns| <= 64 && |s.epochTurns| <= 64 && |s.outputTurns| <= 64
  {
    assert Obeys(Run(es), LinkLaw);
    InputsBounded(Run(es));
  }

  /** Different input streams name different live turns. */
  lemma InputsBounded(s: Life)
    requires Linked(s)
    ensures |s.inputTurns| <= |s.turns|
  {
    Injected(s.inputTurns.Keys, s.inputTurns, s.turns.Keys);
  }

  lemma {:induction false} Injected(keys: set<string>, m: map<string, nat>, values: set<nat>)
    requires forall k :: k in keys ==> k in m && m[k] in values
    requires forall k, l :: k in keys && l in keys && m[k] == m[l] ==> k == l
    ensures |keys| <= |values|
  {
    if keys != {} {
      var k :| k in keys;
      Injected(keys - {k}, m, values - {m[k]});
    }
  }

  /** The story of a turn only grows. */
  lemma {:induction false} StoryGrows(log: seq<Record>, log': seq<Record>, i: nat)
    requires log <= log'
    ensures Of(log, i) <= Of(log', i)
    decreases |log'|
  {
    if log != log' {
      assert log <= log'[..|log'| - 1];
      StoryGrows(log, log'[..|log'| - 1], i);
    }
  }

  /** The turn was started and has been terminated. */
  ghost predicate Terminated(s: Life, i: nat) { 1 <= i <= s.nextIndex && i !in s.turns }

  /** A terminated turn is never heard of again: however the log grows, it stays terminated
      and gets no further record. */
  lemma StoryKept(s: Life, s': Life, i: nat)
    requires Told(s) && Told(s') && s.log <= s'.log && Terminated(s, i)
    ensures Terminated(s', i) && Of(s'.log, i) == Of(s.log, i)
  {
    StoryGrows(s.log, s'.log, i);
    var h, h' := Of(s.log, i), Of(s'.log, i);
    assert TurnTold(s, i) && TurnTold(s', i);
    assert h'[|h| - 1] == TurnTerminal;
    assert TurnTerminal in h';
  }

  lemma RunExtends(es: seq<Event>, e: Event)
    ensures Run(es + [e]) == Step(Run(es), e)
  {
    assert (es + [e])[..|es + [e]| - 1] == es;
  }

  lemma {:induction false} LogGrows(es: seq<Event>, more: seq<Event>)
    ensures Run(es).log <= Run(es + more).log
    decreases |more|
  {
    if more == [] {
      assert es + more == es;
    } else {
      LogGrows(es, more[..|more| - 1]);
      assert es + more == es + more[..|more| - 1] + [more[|more| - 1]];
      RunExtends(es + more[..|more| - 1], more[|more| - 1]);
    }
  }

  lemma TerminatedStays(es: seq<Event>, more: seq<Event>, i: nat)
    ensures Terminated(Run(es), i) ==>
      Terminated(Run(es + more), i) && Of(Run(es + more).log, i) == Of(Run(es).log, i)
  {
    if Terminated(Run(es), i) {
      RunSound(es);
      RunSound(es + more);
      LogGrows(es, more);
      StoryKept(Run(es), Run(es + more), i);
    }
  }

  /** The story of a terminated turn: exactly one turn_started, then exactly one
      agent_terminal, then exactly one turn_terminal, and nothing after it. */
  lemma TerminatedStory(es: seq<Event>, i: nat)
    ensures Terminated(Run(es), i) ==> Closed(Of(Run(es).log, i))
  {
    RunSound(es);
    assert TurnTold(Run(es), i);
  }

  /** The first finish of peer_input, server_tunnel or agent_output leaves no live turn. */
  lemma FirstFinishEndsAll(es: seq<Event>, k: Component, o: Note)
    requires !k.OtherComponent?
    ensures k !in Run(es).finished ==>
      Run(es + [Finishes(k, o)]).turns == map[] && Run(es + [Finishes(k, o)]).nextIndex == Run(es).nextIndex
  {
    if k !in Run(es).finished {
      FinishForms(Run(es), k, o);
      RunExtends(es, Finishes(k, o));
    }
  }
}
