/** peerStreamLifecycle (pkgs/gizclaw/peer_stream_lifecycle.go) with its maps and order
    slices: each observer does to them what the state machine says. */
module PeerStreamLifecycles {
  import opened Options
  import opened Collections
  import opened Lifecycles
  import opened LifecycleRuns

  /** The filtering loops of releaseTurnLocked. */
  method Retain<T(==)>(xs: seq<T>, keep: set<T>) returns (r: seq<T>)
    ensures r == Keep(xs, keep)
  {
    r := [];
    for k := 0 to |xs|
      invariant r == Keep(xs[..k], keep)
    {
      assert xs[..k + 1][..k] == xs[..k];
      if xs[k] in keep {
        r := r + [xs[k]];
      }
    }
    assert xs[..|xs|] == xs;
  }

  lemma {:induction false} KeepSame<T>(xs: seq<T>, a: set<T>, b: set<T>)
    requires forall x :: x in xs ==> (x in a <==> x in b)
    ensures Keep(xs, a) == Keep(xs, b)
  {
    if xs != [] {
      assert xs[|xs| - 1] in xs;
      KeepSame(xs[..|xs| - 1], a, b);
    }
  }

  /** A first element that is not kept makes no difference. */
  lemma {:induction false} KeepTail<T>(xs: seq<T>, keep: set<T>)
    requires xs != [] && xs[0] !in keep
    ensures Keep(xs, keep) == Keep(xs[1..], keep)
  {
    if |xs| > 1 {
      KeepTail(xs[..|xs| - 1], keep);
      assert xs[..|xs| - 1][1..] == xs[1..][..|xs[1..]| - 1];
    }
  }

  lemma {:induction false} KeepAll<T>(xs: seq<T>, keep: set<T>)
    requires forall x :: x in xs ==> x in keep
    ensures Keep(xs, keep) == xs
  {
    if xs != [] {
      KeepAll(xs[..|xs| - 1], keep);
      assert xs[|xs| - 1] in xs;
      assert xs[..|xs| - 1] + [xs[|xs| - 1]] == xs;
    }
  }

  /** Ending the oldest turn leaves the rest of the order. */
  lemma KeepRest(xs: seq<nat>)
    requires Ascending(xs) && xs != []
    ensures Keep(xs, Others(xs, xs[0])) == xs[1..] == Keep(xs[1..], Others(xs[1..], xs[0]))
  {
    forall k | 1 <= k < |xs| ensures xs[k] != xs[0] {
    }
    KeepTail(xs, Others(xs, xs[0]));
    KeepAll(xs[1..], Others(xs, xs[0]));
    KeepAll(xs[1..], Others(xs[1..], xs[0]));
  }

  /** What is done to turn `i` between taking it off an order and terminating it. */
  function Wrap(s: Life, i: nat, agent: Note, output: bool, o: Note): (s': Life)
    requires i in s.turns
    ensures s'.turns.Keys == s.turns.Keys && s' == s.(turns := s'.turns, log := s'.log)
  {
    var s1 := EnsureAgentTerminal(s, i, agent);
    Say(if output then Finalize(s1, i, o) else s1, i, TurnTerminal, o)
  }

  lemma EnsureOrder(s: Life, order: seq<nat>, i: nat, o: Note)
    requires i in s.turns
    ensures EnsureAgentTerminal(s.(turnOrder := order), i, o) == EnsureAgentTerminal(s, i, o).(turnOrder := order)
  {
  }

  lemma FinalizeOrder(s: Life, order: seq<nat>, i: nat, o: Note)
    requires i in s.turns
    ensures Finalize(s.(turnOrder := order), i, o) == Finalize(s, i, o).(turnOrder := order)
  {
  }

  lemma WrapOrder(s: Life, order: seq<nat>, i: nat, agent: Note, output: bool, o: Note)
    requires i in s.turns
    ensures Wrap(s.(turnOrder := order), i, agent, output, o) == Wrap(s, i, agent, output, o).(turnOrder := order)
  {
    EnsureOrder(s, order, i, agent);
    FinalizeOrder(EnsureAgentTerminal(s, i, agent), order, i, o);
  }

  lemma PoppedRelease(s: Life, p: Life, i: nat)
    requires Ascending(s.turnOrder) && s.turnOrder != [] && s.turnOrder[0] == i
    requires p == s.(turnOrder := s.turnOrder[1..])
    ensures Release(p, i) == Release(s, i) && Release(s, i).turnOrder == s.turnOrder[1..]
  {
    KeepRest(s.turnOrder);
  }

  /** Taking the turn off the order before it is ended makes no difference. */
  lemma PoppedTurn(s: Life, agent: Note, output: bool, o: Note)
    requires Formed(s) && s.turnOrder != [] && s.turnOrder[0] in s.turns
    ensures var i, p := s.turnOrder[0], s.(turnOrder := s.turnOrder[1..]);
      && Release(Wrap(p, i, agent, output, o), i) == Release(Wrap(s, i, agent, output, o), i)
      && Release(Wrap(s, i, agent, output, o), i).turnOrder == s.turnOrder[1..]
  {
    var i, p := s.turnOrder[0], s.(turnOrder := s.turnOrder[1..]);
    assert Obeys(s, TurnLaw);
    WrapOrder(s, s.turnOrder[1..], i, agent, output, o);
    PoppedRelease(Wrap(s, i, agent, output, o), Wrap(p, i, agent, output, o), i);
  }

  lemma EndedOldest(s: Life, o: Note)
    requires Formed(s) && s.turnOrder != [] && s.turnOrder[0] in s.turns
    ensures var s' := Terminate(EnsureAgentTerminal(s, s.turnOrder[0], o), s.turnOrder[0], o);
      s' == EndOldest(s, false, o) && s'.turnOrder == s.turnOrder[1..]
  {
    PoppedTurn(s, o, false, o);
  }

  lemma EnsureEpochOrder(s: Life, order: seq<Epoch>, i: nat, o: Note)
    requires i in s.turns
    ensures EnsureAgentTerminal(s.(epochOrder := order), i, o) == EnsureAgentTerminal(s, i, o).(epochOrder := order)
  {
  }

  lemma PoppedEpochRelease(s: Life, p: Life, i: nat)
    requires s.epochOrder != [] && s.epochOrder[0] in s.epochTurns && s.epochTurns[s.epochOrder[0]] == i
    requires p == s.(epochOrder := s.epochOrder[1..])
    ensures Release(p, i) == Release(s, i)
  {
    KeepTail(s.epochOrder, Without(s.epochTurns, i).Keys);
  }

  /** Taking an epoch off the order before its turn is ended makes no difference. */
  lemma PoppedEpoch(s: Life, agent: Note, o: Note)
    requires Formed(s) && s.epochOrder != [] && s.epochOrder[0] in s.epochTurns
    requires s.epochTurns[s.epochOrder[0]] in s.turns
    ensures var i, p := s.epochTurns[s.epochOrder[0]], s.(epochOrder := s.epochOrder[1..]);
      End(p, i, agent, o) == End(s, i, agent, o)
  {
    var i, order := s.epochTurns[s.epochOrder[0]], s.epochOrder[1..];
    EnsureEpochOrder(s, order, i, agent);
    var s1 := Say(EnsureAgentTerminal(s, i, agent), i, TurnTerminal, o);
    PoppedEpochRelease(s1, s1.(epochOrder := order), i);
  }

  class PeerStreamLifecycle {
    var nextIndex: nat
    var current: nat
    var turns: map<nat, Turn>
    var turnOrder: seq<nat>
    var inputTurns: map<string, nat>
    var outputTurns: map<string, nat>
    var outputOrder: seq<string>
    var epochTurns: map<Epoch, nat>
    var epochOrder: seq<Epoch>
    var finished: set<Component>
    ghost var log: seq<Record>

    ghost function View(): Life
      reads this
    {
      Life(nextIndex, current, turns, turnOrder, inputTurns, outputTurns, outputOrder, epochTurns, epochOrder, finished, log)
    }

    ghost predicate Valid()
      reads this
    {
      Formed(View()) && Bounded(View())
    }

    constructor ()
      ensures Valid() && View() == Start()
    {
      nextIndex, current, turns, turnOrder := 0, 0, map[], [];
      inputTurns, outputTurns, outputOrder, epochTurns, epochOrder := map[], map[], [], map[], [];
      finished, log := {}, [];
    }

    method RecordOnce(i: nat, stage: Stage, o: Note)
      requires i in turns
      modifies this`turns, this`log
      ensures View() == Once(old(View()), i, stage, o)
    {
      if stage !in turns[i].seen {
        turns := turns[i := turns[i].(seen := turns[i].seen + {stage})];
        log := log + [Record(i, stage, o)];
      }
    }

    method AgentEnds(i: nat, o: Note)
      requires i in turns
      modifies this`turns, this`log
      ensures View() == EnsureAgentTerminal(old(View()), i, o)
    {
      if !turns[i].agentTerminal {
        turns := turns[i := turns[i].(agentTerminal := true)];
        RecordOnce(i, AgentTerminal, o);
      }
    }

    method OutputEnds(i: nat, o: Note)
      requires i in turns
      modifies this`turns, this`log
      ensures View() == Finalize(old(View()), i, o)
    {
      turns := turns[i := turns[i].(outputTerminal := true)];
      RecordOnce(i, OutputTerminal, o);
    }

    method DropsTurn(i: nat)
      modifies this`turns, this`turnOrder, this`inputTurns, this`current
      ensures View() == DropTurn(old(View()), i)
    {
      turns := turns - {i};
      turnOrder := Retain(turnOrder, Others(turnOrder, i));
      inputTurns := Without(inputTurns, i);
      if current == i {
        current := 0;
      }
    }

    method DropsEpochs(i: nat)
      modifies this`epochTurns, this`epochOrder
      ensures View() == DropEpochs(old(View()), i)
    {
      epochTurns := Without(epochTurns, i);
      epochOrder := Retain(epochOrder, epochTurns.Keys);
    }

    method DropsRoutes(i: nat)
      modifies this`outputTurns, this`outputOrder
      ensures View() == DropRoutes(old(View()), i)
    {
      outputTurns := Without(outputTurns, i);
      outputOrder := Retain(outputOrder, outputTurns.Keys);
    }

    method ReleaseTurn(i: nat)
      modifies this
      ensures View() == Release(old(View()), i)
    {
      DropsTurn(i);
      DropsEpochs(i);
      DropsRoutes(i);
    }

    method TerminateTurn(i: nat, o: Note)
      modifies this
      ensures View() == Terminate(old(View()), i, o)
    {
      log := log + [Record(i, TurnTerminal, o)];
      ReleaseTurn(i);
    }

    /** The first turn of the order, taken off it: with every listed turn live, the search
        ends at once. */
    method OldestTurn() returns (i: nat)
      requires Formed(View()) && turnOrder != []
      modifies this`turnOrder
      ensures i == old(turnOrder)[0] && i in turns && View() == old(View()).(turnOrder := old(turnOrder)[1..])
    {
      assert Obeys(View(), TurnLaw);
      i := turnOrder[0];
      turnOrder := turnOrder[1..];
    }

    method StartsTurn(streamID: string)
      requires Valid()
      modifies this
      ensures Valid() && View() == StartTurn(old(View()), streamID)
    {
      StartTurnForms(View(), streamID);
      ReplaceForms(View());
      NewTurnForms(ReplaceCurrent(View()), streamID);
      ReplacesCurrent();
      AddsTurn(streamID);
      EvictsTurns();
    }

    method ReplacesCurrent()
      modifies this
      ensures View() == ReplaceCurrent(old(View()))
    {
      var i := current;
      if i in turns {
        RecordOnce(i, Interrupted, InterruptedByInput);
        var t := turns[i];
        if t.inputPushed || t.transformStarted || t.epochBound || (t.agentTerminal && !t.outputTerminal) {
          turns := turns[i := t.(pending := true)];
        } else {
          AgentEnds(i, InterruptedByInput);
          TerminateTurn(i, Replaced);
        }
      }
    }

    method AddsTurn(streamID: string)
      modifies this
      ensures View() == NewTurn(old(View()), streamID)
    {
      nextIndex := nextIndex + 1;
      turns := turns[nextIndex := Turn({TurnStarted}, false, false, false, false, false, false)];
      turnOrder := turnOrder + [nextIndex];
      current := nextIndex;
      if streamID != "" {
        inputTurns := inputTurns[streamID := nextIndex];
      }
      log := log + [Record(nextIndex, TurnStarted, Accepted)];
    }

    method EvictsTurns()
      requires Formed(View())
      modifies this
      ensures View() == EvictTurns(old(View()))
    {
      while |turns| > MAX_TURNS
        invariant Formed(View()) && EvictTurns(View()) == EvictTurns(old(View()))
        decreases |turns|
      {
        ghost var s := View();
        assert Obeys(s, TurnLaw);
        OrderNotEmpty(s);
        EndForms(s, s.turnOrder[0], StateLimit, StateLimit);
        PoppedTurn(s, StateLimit, false, StateLimit);
        var i := OldestTurn();
        AgentEnds(i, StateLimit);
        TerminateTurn(i, StateLimit);
        assert View() == End(s, i, StateLimit, StateLimit);
      }
    }

    /** Ends the turns of the oldest epochs while there are too many; each listed epoch is
        bound and its turn is live. */
    method EvictsEpochs(owner: string)
      requires Formed(View()) && Owned(View(), owner).Some?
      modifies this
      ensures View() == EvictEpochs(old(View()), owner)
    {
      while |epochTurns| >= MAX_ROUTES && epochOrder != [] && Lives(owner)
        invariant Formed(View()) && EvictEpochs(View(), owner) == EvictEpochs(old(View()), owner)
        decreases |epochTurns|
      {
        EndsOldestEpoch();
      }
    }

    method EndsOldestEpoch()
      requires Formed(View()) && epochOrder != []
      modifies this
      ensures Formed(View()) && |epochTurns| < |old(epochTurns)| && old(epochOrder)[0] in old(epochTurns)
      ensures old(epochTurns)[old(epochOrder)[0]] in old(turns)
      ensures View() == End(old(View()), old(epochTurns)[old(epochOrder)[0]], StateLimit, StateLimit)
    {
      ghost var s := View();
      assert Obeys(s, EpochLaw);
      var i := epochTurns[epochOrder[0]];
      assert i in s.epochTurns.Values;
      EndForms(s, i, StateLimit, StateLimit);
      PoppedEpoch(s, StateLimit, StateLimit);
      epochOrder := epochOrder[1..];
      AgentEnds(i, StateLimit);
      TerminateTurn(i, StateLimit);
    }

    predicate Lives(owner: string)
      reads this
      ensures Lives(owner) <==> Owned(View(), owner).Some?
    {
      owner != "" && owner in inputTurns && inputTurns[owner] in turns
    }

    method BindsRoute(streamID: string, i: nat)
      modifies this`outputTurns, this`outputOrder
      ensures View() == BindRoute(old(View()), streamID, i)
    {
      if streamID == "" {
        return;
      }
      outputTurns := outputTurns[streamID := i];
      outputOrder := outputOrder + [streamID];
      ghost var s := View();
      while |outputTurns| > MAX_ROUTES && outputOrder != []
        invariant View() == s.(outputTurns := outputTurns, outputOrder := outputOrder)
        invariant TrimRoutes(View()) == TrimRoutes(s)
        decreases |outputOrder|
      {
        outputTurns := outputTurns - {outputOrder[0]};
        outputOrder := outputOrder[1..];
      }
    }

    method FindsOutputTurn(c: Output) returns (i: Option<nat>)
      requires Valid()
      modifies this
      ensures Valid() && View() == OutputTurn(old(View()), c).life && i == OutputTurn(old(View()), c).turn
      ensures i.Some? ==> i.value in turns
    {
      OutputTurnForms(View(), c);
      if c.epoch.None? {
        return None;
      }
      var e := c.epoch.value;
      if e in epochTurns {
        return Some(epochTurns[e]);
      }
      if !Lives(e.owner) {
        return None;
      }
      EvictsEpochs(e.owner);
      if !Lives(e.owner) {
        return None;
      }
      i := Some(inputTurns[e.owner]);
      epochTurns := epochTurns[e := i.value];
      epochOrder := epochOrder + [e];
      BindsRoute(c.streamID, i.value);
    }

    method ObservesInput(streamID: string, begins: bool, terminal: bool, o: Note)
      requires Valid()
      modifies this
      ensures Valid() && View() == Step(old(View()), Input(streamID, begins, terminal, o))
    {
      StepForms(View(), Input(streamID, begins, terminal, o));
      if begins {
        StartsTurn(streamID);
      }
      var i := FindsInputTurn(streamID);
      if i.Some? {
        RecordOnce(i.value, InputFirst, Success);
        if terminal {
          RecordOnce(i.value, InputTerminal, o);
        }
      }
    }

    method FindsInputTurn(streamID: string) returns (i: Option<nat>)
      ensures i == InputTurn(View(), streamID)
    {
      if streamID != "" && streamID in inputTurns && inputTurns[streamID] in turns {
        return Some(inputTurns[streamID]);
      }
      return if current in turns then Some(current) else None;
    }

    method ObservesInputPush(streamID: string)
      requires Valid()
      modifies this
      ensures Valid() && View() == Step(old(View()), InputPush(streamID))
    {
      StepForms(View(), InputPush(streamID));
      var i := FindsInputTurn(streamID);
      if i.Some? {
        turns := turns[i.value := turns[i.value].(inputPushed := true)];
        RecordOnce(i.value, InputPushed, Success);
      }
    }

    method ObservesTransformStarted(streamID: string)
      requires Valid()
      modifies this
      ensures Valid() && View() == Step(old(View()), TransformStart(streamID))
    {
      StepForms(View(), TransformStart(streamID));
      var i := FindsInputTurn(streamID);
      if i.Some? {
        turns := turns[i.value := turns[i.value].(transformStarted := true)];
        RecordOnce(i.value, TransformStarted, Success);
      }
    }

    method ObservesInterrupt()
      requires Valid()
      modifies this
      ensures Valid() && View() == Step(old(View()), Interrupt)
    {
      StepForms(View(), Interrupt);
      if current in turns {
        RecordOnce(current, Interrupted, ControlInterrupt);
      }
    }

    method ObservesDelivered(c: Output, modal: bool)
      requires Valid()
      modifies this
      ensures Valid() && View() == Step(old(View()), Deliver(c, modal))
    {
      StepForms(View(), Deliver(c, modal));
      var i := FindsOutputTurn(c);
      if i.Some? {
        RecordOnce(i.value, OutputFirst, Success);
        if c.observable && modal {
          RecordOnce(i.value, Delivered, Success);
        }
      }
    }

    method ObservesProduced(c: Output)
      requires Valid()
      modifies this
      ensures Valid() && View() == Step(old(View()), Produce(c))
    {
      StepForms(View(), Produce(c));
      var i := FindsOutputTurn(c);
      if i.Some? {
        if c.observable {
          RecordOnce(i.value, Produced, Success);
        }
        if c.assistant {
          turns := turns[i.value := turns[i.value].(epochBound := true)];
          if c.epochEnd {
            AgentEnds(i.value, c.outcome);
          }
        }
      }
    }

    method ObservesDrained(c: Output)
      requires Valid()
      modifies this
      ensures Valid() && View() == Step(old(View()), Drain(c))
    {
      StepForms(View(), Drain(c));
      if !c.epochEnd {
        return;
      }
      var i := FindsOutputTurn(c);
      if i.Some? && turns[i.value].agentTerminal && !turns[i.value].outputTerminal {
        EndsOutput(c, i.value);
      }
    }

    method EndsOutput(c: Output, i: nat)
      requires i in turns
      modifies this
      ensures View() == EndOutput(old(View()), c, i)
    {
      OutputEnds(i, c.outcome);
      outputTurns := outputTurns - {c.streamID};
      TerminateTurn(i, if turns[i].pending then Replaced else c.outcome);
    }

    method Finishes(component: Component, o: Note)
      requires Valid()
      modifies this
      ensures Valid() && View() == Step(old(View()), Event.Finishes(component, o))
    {
      StepForms(View(), Event.Finishes(component, o));
      FinishesOnce(component, o);
    }

    method FinishesOnce(component: Component, o: Note)
      requires Formed(View())
      modifies this
      ensures View() == Finish(old(View()), component, o)
    {
      if component in finished {
        return;
      }
      SameForm(View(), View().(finished := finished + {component}));
      finished := finished + {component};
      match component
      case AgentOutput => TerminatesOutput(o);
      case OtherComponent(_) =>
      case _ => TerminatesAll(o);
    }

    /** Goes through a copy of the order; the turns that the order does not list, which the
        source looks for afterwards, do not exist. */
    method TerminatesAll(o: Note)
      requires Formed(View())
      modifies this
      ensures View() == EndAll(old(View()), false, o) && turns == map[]
    {
      var order := turnOrder;
      for k := 0 to |order|
        invariant Formed(View()) && turnOrder == order[k..]
        invariant EndAll(View(), false, o) == EndAll(old(View()), false, o)
      {
        EndsFirst(order[k], o);
      }
      assert Obeys(View(), TurnLaw);
    }

    method EndsFirst(i: nat, o: Note)
      requires Formed(View()) && turnOrder != [] && i == turnOrder[0]
      modifies this
      ensures Formed(View()) && View() == EndOldest(old(View()), false, o) && turnOrder == old(turnOrder)[1..]
    {
      ghost var s := View();
      assert Obeys(s, TurnLaw);
      EndOldestForms(s, false, o);
      EndedOldest(s, o);
      AgentEnds(i, o);
      TerminateTurn(i, o);
    }

    method TerminatesOutput(o: Note)
      requires Formed(View())
      modifies this
      ensures View() == EndAll(old(View()), true, o) && turns == map[]
    {
      while |turns| > 0
        invariant Formed(View()) && EndAll(View(), true, o) == EndAll(old(View()), true, o)
        decreases |turns|
      {
        assert Obeys(View(), TurnLaw);
        OrderNotEmpty(View());
        EndsFirstOutput(o);
      }
      assert Obeys(View(), TurnLaw);
    }

    method EndsFirstOutput(o: Note)
      requires Formed(View()) && turnOrder != []
      modifies this
      ensures Formed(View()) && View() == EndOldest(old(View()), true, o) && |turns| == |old(turns)| - 1
    {
      ghost var s := View();
      EndOldestForms(s, true, o);
      assert Obeys(s, TurnLaw);
      PoppedTurn(s, o, true, o);
      var i := OldestTurn();
      AgentEnds(i, o);
      OutputEnds(i, o);
      TerminateTurn(i, o);
    }
  }
}
