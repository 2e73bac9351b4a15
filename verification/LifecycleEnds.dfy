/** Exactly which turns a step ends, and as what (pkgs/gizclaw/peer_stream_lifecycle.go). */
module LifecycleEnds {
  import opened Options
  import opened Collections
  import opened Lifecycles
  import opened LifecycleRuns
  import opened LifecycleSheds
  import opened LifecycleOwners
  import opened LifecycleBindings
  import opened LifecycleTold
  import opened LifecycleOutputs

  /** The outcomes of agent_terminal, unless the agent had ended before, of output_terminal, if
      there is one, and of turn_terminal. */
  datatype Ending = Ending(agent: Note, output: Option<Note>, turn: Note)

  const EVICTED := Ending(StateLimit, None, StateLimit)

  /** The agent may have something to deliver for the turn: input was pushed to it, its transform
      began, it produced assistant output, or it has ended. */
  predicate Engaged(t: Turn) { t.inputPushed || t.transformStarted || t.epochBound || t.agentTerminal }

  /** The turns that are left when a BOS has dealt with the last one. */
  function Left(ids: seq<string>, s: Life): (live: set<nat>) {
    if |ids| in s.turns && !Engaged(s.turns[|ids|]) then s.turns.Keys - {|ids|} else s.turns.Keys
  }

  /** Turn `i` is the oldest and there is no room for another. */
  ghost predicate Overflows(live: set<nat>, i: nat) {
    |live| == MAX_TURNS && i in live && forall j :: j in live ==> i <= j
  }

  /** The unbound epoch of `c` has a live owner, but 64 epochs are bound and the first of them
      belongs to turn `i`. */
  predicate MakesRoom(ids: seq<string>, s: Life, c: Output, i: nat)
    requires Formed(s)
  {
    && c.epoch.Some? && c.epoch.value !in s.epochTurns && Owner(ids, s, c.epoch.value)
    && |s.epochTurns| == MAX_ROUTES && i == Victim(s)
  }

  /** The epoch of `c` is bound to turn `i` or has it as its owner. */
  predicate Concerns(ids: seq<string>, s: Life, c: Output, i: nat) {
    && c.epoch.Some?
    && if c.epoch.value in s.epochTurns then s.epochTurns[c.epoch.value] == i
       else Owner(ids, s, c.epoch.value) && LastOf(ids, c.epoch.value.owner) == i
  }

  /** As what event `e` ends turn `i`, if it does. */
  ghost function EndsAs(ids: seq<string>, s: Life, e: Event, i: nat): (d: Option<Ending>)
    requires Formed(s) && i in s.turns
  {
    match e
    case Input(_, begins, _, _) =>
      if !begins then None
      else if i !in Left(ids, s) then Some(Ending(InterruptedByInput, None, Replaced))
      else if Overflows(Left(ids, s), i) then Some(EVICTED)
      else None
    case Deliver(c, _) => if MakesRoom(ids, s, c, i) then Some(EVICTED) else None
    case Produce(c) => if MakesRoom(ids, s, c, i) then Some(EVICTED) else None
    case Drain(c) => if c.epochEnd then DrainEndsAs(ids, s, c, i) else None
    case Finishes(k, o) => FinishEndsAs(s, k, o)
    case _ => None
  }

  function FinishEndsAs(s: Life, k: Component, o: Note): (d: Option<Ending>) {
    if k in s.finished || k.OtherComponent? then None else Some(FinishEnding(k.AgentOutput?, o))
  }

  function DrainEndsAs(ids: seq<string>, s: Life, c: Output, i: nat): (d: Option<Ending>)
    requires Formed(s) && i in s.turns
  {
    if MakesRoom(ids, s, c, i) then Some(EVICTED)
    else if Concerns(ids, s, c, i) && s.turns[i].agentTerminal
    then Some(Ending(c.outcome, Some(c.outcome), if s.turns[i].pending then Replaced else c.outcome))
    else None
  }

  /** Turn `i` was ended as `d` says. */
  ghost predicate EndedAs(s: Life, s': Life, i: nat, d: Ending) {
    && i in s.turns && i !in s'.turns && Record(i, TurnTerminal, d.turn) in s'.log
    && (AgentTerminal in s.turns[i].seen || Record(i, AgentTerminal, d.agent) in s'.log)
    && (d.output.Some? ==> Record(i, OutputTerminal, d.output.value) in s'.log)
  }

  /** Turn `i` ended as `d` says, or lives on when that is None. */
  ghost predicate Ends(s: Life, s': Life, i: nat, d: Option<Ending>) {
    if d.None? then i in s'.turns else EndedAs(s, s', i, d.value)
  }

  lemma EndedStays(s: Life, m: Life, s': Life, i: nat, d: Ending)
    requires EndedAs(s, m, i, d) && m.log <= s'.log && i !in s'.turns
    ensures EndedAs(s, s', i, d)
  {
  }

  lemma EndedAfter(s: Life, m: Life, s': Life, i: nat, d: Option<Ending>)
    requires i in s.turns && i in m.turns && Ends(m, s', i, d)
    requires AgentTerminal in m.turns[i].seen ==> AgentTerminal in s.turns[i].seen
    ensures Ends(s, s', i, d)
  {
  }

  lemma EnsureRecords(s: Life, i: nat, o: Note)
    requires i in s.turns && (AgentTerminal in s.turns[i].seen <==> s.turns[i].agentTerminal)
    ensures AgentTerminal in s.turns[i].seen || Record(i, AgentTerminal, o) in EnsureAgentTerminal(s, i, o).log
  {
    if !s.turns[i].agentTerminal {
      EnsureSays(s, i, o, s.turns[i].(agentTerminal := true, seen := s.turns[i].seen + {AgentTerminal}));
    }
  }

  lemma TerminateRecords(s: Life, i: nat, o: Note)
    ensures var s' := Terminate(s, i, o); s'.log == s.log + [Record(i, TurnTerminal, o)] && i !in s'.turns
  {
  }

  lemma EndEnds(s: Life, i: nat, agent: Note, o: Note)
    requires i in s.turns && (AgentTerminal in s.turns[i].seen <==> s.turns[i].agentTerminal)
    ensures EndedAs(s, End(s, i, agent, o), i, Ending(agent, None, o))
  {
    EnsureRecords(s, i, agent);
    TerminateRecords(EnsureAgentTerminal(s, i, agent), i, o);
  }

  // ------------------------------------------------------------------------------------ BOS

  lemma ReplaceLeaves(ids: seq<string>, s: Life)
    requires Formed(s) && Tied(ids, s) && Delivering(s)
    ensures ReplaceCurrent(s).turns.Keys == Left(ids, s)
  {
    var j := s.current;
    if j in s.turns {
      assert Unended(s.turns[j]);
      if !AwaitsDelivery(s.turns[j]) {
        ReplacedLeaves(s);
      }
    }
  }

  lemma ReplacedLeaves(s: Life)
    requires Formed(s) && s.current in s.turns && !AwaitsDelivery(s.turns[s.current])
    ensures ReplaceCurrent(s).turns.Keys == s.turns.Keys - {s.current}
  {
    var s1 := Once(s, s.current, Interrupted, InterruptedByInput);
    SameForm(s, s1);
    EndForms(s1, s.current, InterruptedByInput, Replaced);
  }

  lemma ReplaceEnds(ids: seq<string>, s: Life, i: nat)
    requires Sound(s) && Tied(ids, s) && Delivering(s) && i in s.turns && i !in Left(ids, s)
    ensures EndedAs(s, ReplaceCurrent(s), i, Ending(InterruptedByInput, None, Replaced))
  {
    assert Unended(s.turns[i]);
    var s1 := Once(s, i, Interrupted, InterruptedByInput);
    AgentSeen(s, i);
    EndEnds(s1, i, InterruptedByInput, Replaced);
  }

  lemma OldestFirst(s: Life)
    requires Formed(s) && s.turnOrder != []
    ensures s.turnOrder[0] in s.turns && forall j :: j in s.turns ==> s.turnOrder[0] <= j
  {
    assert Obeys(s, TurnLaw);
    forall j | j in s.turns ensures s.turnOrder[0] <= j {
      assert j in s.turnOrder;
      var k :| 0 <= k < |s.turnOrder| && s.turnOrder[k] == j;
      assert k > 0 ==> s.turnOrder[0] < s.turnOrder[k];
    }
  }

  /** One turn more than there is room for: the oldest goes, and no other. */
  lemma EvictsOldest(s: Life)
    requires Formed(s) && |s.turns| <= MAX_TURNS + 1
    ensures |s.turns| <= MAX_TURNS ==> EvictTurns(s) == s
    ensures |s.turns| == MAX_TURNS + 1 ==>
      && s.turnOrder != [] && s.turnOrder[0] in s.turns
      && EvictTurns(s) == End(s, s.turnOrder[0], StateLimit, StateLimit)
  {
    if |s.turns| == MAX_TURNS + 1 {
      assert Obeys(s, TurnLaw);
      OrderNotEmpty(s);
      EndForms(s, s.turnOrder[0], StateLimit, StateLimit);
    }
  }

  lemma EvictEnds(s: Life, i: nat)
    requires Sound(s) && i in s.turns && |s.turns| <= MAX_TURNS + 1
    ensures Ends(s, EvictTurns(s), i,
                 if |s.turns| == MAX_TURNS + 1 && forall j :: j in s.turns ==> i <= j then Some(EVICTED) else None)
  {
    EvictsOldest(s);
    if |s.turns| == MAX_TURNS + 1 {
      OldestFirst(s);
      OneEnds(s, s.turnOrder[0], i);
    }
  }

  /** Ending turn `j` for lack of room ends no other. */
  lemma OneEnds(s: Life, j: nat, i: nat)
    requires Sound(s) && i in s.turns && j in s.turns
    ensures Ends(s, End(s, j, StateLimit, StateLimit), i, if i == j then Some(EVICTED) else None)
  {
    AgentSeen(s, j);
    EndEnds(s, j, StateLimit, StateLimit);
    EndForms(s, j, StateLimit, StateLimit);
    assert i in End(s, j, StateLimit, StateLimit).turns <==> i in s.turns.Keys - {j};
  }

  lemma StartEnds(ids: seq<string>, s: Life, id: string, i: nat)
    requires Sound(s) && Bounded(s) && Tied(ids, s) && Delivering(s) && i in s.turns
    ensures Ends(s, StartTurn(s, id), i, EndsAs(ids, s, Input(id, true, false, Success), i))
  {
    var s1 := ReplaceCurrent(s);
    var s2 := NewTurn(s1, id);
    ReplaceForms(s);
    NewTurnForms(s1, id);
    if i !in Left(ids, s) {
      ReplaceEnds(ids, s, i);
      GoneStays(s, id, i);
      EndedStays(s, s1, StartTurn(s, id), i, Ending(InterruptedByInput, None, Replaced));
    } else {
      LeftEnds(ids, s, id, i);
    }
  }

  lemma GoneStays(s: Life, id: string, i: nat)
    requires Formed(s) && i in s.turns && i !in ReplaceCurrent(s).turns
    ensures i !in StartTurn(s, id).turns
  {
    var s1 := ReplaceCurrent(s);
    var s2 := NewTurn(s1, id);
    ReplaceForms(s);
    NewTurnForms(s1, id);
    EvictTurnsSheds(s2);
    assert Obeys(s, TurnLaw);
    assert i in StartTurn(s, id).turns ==> i in s2.turns.Keys;
  }

  lemma LeftEnds(ids: seq<string>, s: Life, id: string, i: nat)
    requires Sound(s) && Bounded(s) && Tied(ids, s) && Delivering(s) && i in s.turns && i in Left(ids, s)
    ensures Ends(s, StartTurn(s, id), i, if Overflows(Left(ids, s), i) then Some(EVICTED) else None)
  {
    var s1 := ReplaceCurrent(s);
    ReplaceForms(s);
    ReplaceTells(s);
    ReplaceLeaves(ids, s);
    assert i in s1.turns.Keys && |s1.turns| == |s1.turns.Keys|;
    NewTurnForms(s1, id);
    SeenKept(s, i);
    BegunEnds(s1, id, i);
    EndedAfter(s, s1, StartTurn(s, id), i, if Overflows(Left(ids, s), i) then Some(EVICTED) else None);
  }

  lemma BegunEnds(s: Life, id: string, i: nat)
    requires Sound(s) && |s.turns| <= MAX_TURNS && i in s.turns && Formed(NewTurn(s, id))
    ensures Ends(s, EvictTurns(NewTurn(s, id)), i, if Overflows(s.turns.Keys, i) then Some(EVICTED) else None)
  {
    var s' := NewTurn(s, id);
    FreshIndex(s);
    NewTurnForms(s, id);
    NewTurnTells(s, id);
    NewestLast(s, id, i);
    EvictEnds(s', i);
    assert |s.turns| == |s.turns.Keys|;
    EndedAfter(s, s', EvictTurns(s'), i, if Overflows(s.turns.Keys, i) then Some(EVICTED) else None);
  }

  lemma NewestLast(s: Life, id: string, i: nat)
    requires Formed(s) && i in s.turns
    ensures (forall j :: j in NewTurn(s, id).turns ==> i <= j) <==> forall j :: j in s.turns.Keys ==> i <= j
  {
    assert Obeys(s, TurnLaw);
    var s' := NewTurn(s, id);
    if forall j :: j in s'.turns ==> i <= j {
      forall j | j in s.turns.Keys ensures i <= j {
        assert j in s'.turns;
      }
    }
  }

  /** Whether the agent has ended is not changed by an interruption. */
  lemma SeenKept(s: Life, i: nat)
    requires Formed(s) && i in s.turns && i in ReplaceCurrent(s).turns
    ensures AgentTerminal in ReplaceCurrent(s).turns[i].seen <==> AgentTerminal in s.turns[i].seen
  {
    ReplaceChanges(s);
    if i == s.current {
      OnceSeen(s, i, Interrupted, InterruptedByInput, AgentTerminal);
    }
  }

  lemma OnceSeen(s: Life, i: nat, x: Stage, o: Note, y: Stage)
    requires i in s.turns && y != x
    ensures y in Once(s, i, x, o).turns[i].seen <==> y in s.turns[i].seen
  {
    OnceAdds(s, i, x, o, i, y);
    assert LifecycleTold.Gains(s, Once(s, i, x, o), i, y, None, Seen);
  }

  // --------------------------------------------------------------------------------- output

  lemma FindEnds(ids: seq<string>, s: Life, c: Output, i: nat)
    requires Sound(s) && Bounded(s) && Tied(ids, s) && i in s.turns
    ensures Ends(s, OutputTurn(s, c).life, i, if MakesRoom(ids, s, c, i) then Some(EVICTED) else None)
  {
    var f := OutputTurn(s, c);
    OutputTurnFinds(ids, s, c);
    if c.epoch.Some? && c.epoch.value !in s.epochTurns && Owner(ids, s, c.epoch.value) && |s.epochTurns| == MAX_ROUTES {
      RoomEnds(ids, s, c, i);
    }
  }

  lemma RoomEnds(ids: seq<string>, s: Life, c: Output, i: nat)
    requires Sound(s) && i in s.turns && c.epoch.Some?
    requires EvictsAndFinds(ids, s, c, OutputTurn(s, c).life, OutputTurn(s, c).turn)
    ensures Ends(s, OutputTurn(s, c).life, i, if i == Victim(s) then Some(EVICTED) else None)
  {
    OneEnds(s, Victim(s), i);
  }

  lemma TouchedEnds(s: Life, m: Life, s': Life, i: nat, d: Option<Ending>)
    requires Ends(s, m, i, d) && s'.turns.Keys == m.turns.Keys && m.log <= s'.log
    ensures Ends(s, s', i, d)
  {
    assert i in s'.turns <==> i in s'.turns.Keys;
    if d.Some? {
      EndedStays(s, m, s', i, d.value);
    }
  }

  lemma DeliverEnds(ids: seq<string>, s: Life, c: Output, modal: bool, i: nat)
    requires Sound(s) && Bounded(s) && Tied(ids, s) && i in s.turns
    ensures var e := Deliver(c, modal); Ends(s, Step(s, e), i, EndsAs(ids, s, e, i))
  {
    OutputTurnForms(s, c);
    FindEnds(ids, s, c, i);
    TouchedEnds(s, OutputTurn(s, c).life, ObserveDelivered(s, c, modal), i, if MakesRoom(ids, s, c, i) then Some(EVICTED) else None);
  }

  lemma ProduceEnds(ids: seq<string>, s: Life, c: Output, i: nat)
    requires Sound(s) && Bounded(s) && Tied(ids, s) && i in s.turns
    ensures var e := Produce(c); Ends(s, Step(s, e), i, EndsAs(ids, s, e, i))
  {
    OutputTurnForms(s, c);
    FindEnds(ids, s, c, i);
    TouchedEnds(s, OutputTurn(s, c).life, ObserveProduced(s, c), i, if MakesRoom(ids, s, c, i) then Some(EVICTED) else None);
  }

  /** The turn that is found for a chunk. */
  lemma FoundTurn(ids: seq<string>, s: Life, c: Output, i: nat)
    requires Formed(s) && Bounded(s) && Tied(ids, s) && i in s.turns
    ensures OutputTurn(s, c).turn == Some(i) <==> Concerns(ids, s, c, i) && !MakesRoom(ids, s, c, i)
  {
    OutputTurnFinds(ids, s, c);
  }

  lemma EndOutputRecords(s: Life, c: Output, i: nat)
    requires i in s.turns && s.turns[i].agentTerminal && AgentTerminal in s.turns[i].seen && OutputTerminal !in s.turns[i].seen
    ensures EndedAs(s, EndOutput(s, c, i), i, Ending(c.outcome, Some(c.outcome), if s.turns[i].pending then Replaced else c.outcome))
  {
    var s1 := Finalize(s, i, c.outcome);
    var s2 := s1.(outputTurns := s1.outputTurns - {c.streamID});
    assert Record(i, OutputTerminal, c.outcome) in s1.log;
    TerminateRecords(s2, i, if s2.turns[i].pending then Replaced else c.outcome);
  }

  lemma DrainedEnds(ids: seq<string>, s: Life, c: Output, i: nat)
    requires Sound(s) && Bounded(s) && Tied(ids, s) && Delivering(s) && i in s.turns && c.epochEnd
    ensures Ends(s, ObserveDrained(s, c), i, DrainEndsAs(ids, s, c, i))
  {
    var f := OutputTurn(s, c);
    OutputTurnForms(s, c);
    FindEnds(ids, s, c, i);
    FoundTurn(ids, s, c, i);
    OutputTurnUnended(s, c);
    if f.turn.Some? && f.life.turns[f.turn.value].agentTerminal {
      EndOutputEnds(f.life, c, f.turn.value);
      if f.turn.value == i {
        FindKeeps(s, c, i);
        AgentSeen(s, i);
        EndOutputRecords(f.life, c, i);
        EndedAfter(s, f.life, EndOutput(f.life, c, i), i, DrainEndsAs(ids, s, c, i));
      } else {
        EndOutputOther(s, f.life, c, f.turn.value, i, if MakesRoom(ids, s, c, i) then Some(EVICTED) else None);
      }
    } else if f.turn == Some(i) {
      FindKeeps(s, c, i);
    }
  }

  lemma EndOutputOther(s: Life, m: Life, c: Output, j: nat, i: nat, d: Option<Ending>)
    requires j in m.turns && i != j && Ends(s, m, i, d)
    ensures Ends(s, EndOutput(m, c, j), i, d)
  {
    EndOutputEnds(m, c, j);
    assert i in EndOutput(m, c, j).turns <==> i in m.turns.Keys - {j};
    if d.Some? {
      EndedStays(s, m, EndOutput(m, c, j), i, d.value);
    }
  }

  // --------------------------------------------------------------------------------- finish

  lemma EndOldestEnds(s: Life, output: bool, o: Note)
    requires Sound(s) && Delivering(s) && s.turnOrder != []
    ensures s.turnOrder[0] in s.turns
    ensures EndedAs(s, EndOldest(s, output, o), s.turnOrder[0], Ending(o, if output then Some(o) else None, o))
  {
    assert Obeys(s, TurnLaw);
    var i := s.turnOrder[0];
    AgentSeen(s, i);
    EnsureRecords(s, i, o);
    EnsureUnended(s, i, o);
    CloseEnds(s, EnsureAgentTerminal(s, i, o), i, output, o);
  }

  lemma CloseEnds(s: Life, m: Life, i: nat, output: bool, o: Note)
    requires i in s.turns && i in m.turns && OutputTerminal !in m.turns[i].seen
    requires AgentTerminal in s.turns[i].seen || Record(i, AgentTerminal, o) in m.log
    ensures var s1 := if output then Finalize(m, i, o) else m;
      EndedAs(s, Terminate(s1, i, o), i, Ending(o, if output then Some(o) else None, o))
  {
    if output {
      FinalRecords(m, i, o);
    }
    TerminateRecords(if output then Finalize(m, i, o) else m, i, o);
  }

  lemma FinalRecords(s: Life, i: nat, o: Note)
    requires i in s.turns && OutputTerminal !in s.turns[i].seen
    ensures Record(i, OutputTerminal, o) in Finalize(s, i, o).log
  {
  }

  lemma EndOldestUnended(s: Life, output: bool, o: Note)
    requires Formed(s) && Delivering(s) && s.turnOrder != []
    ensures Delivering(EndOldest(s, output, o))
  {
    assert Obeys(s, TurnLaw);
    var i := s.turnOrder[0];
    var s1 := EnsureAgentTerminal(s, i, o);
    EnsureUnended(s, i, o);
    FinalizeUnended(s1, i, o);
    TerminateUnended(if output then Finalize(s1, i, o) else s1, i, o);
  }

  function FinishEnding(output: bool, o: Note): (d: Ending) { Ending(o, if output then Some(o) else None, o) }

  lemma {:induction false} EndAllEnds(s: Life, output: bool, o: Note, i: nat)
    requires Sound(s) && Bounded(s) && Delivering(s) && i in s.turns
    ensures EndedAs(s, EndAll(s, output, o), i, FinishEnding(output, o))
    decreases |s.turns|
  {
    ListedLive(s, i);
    EndAllForms(s, output, o);
    if i == s.turnOrder[0] {
      EndOldestEnds(s, output, o);
      EndedStays(s, EndOldest(s, output, o), EndAll(s, output, o), i, FinishEnding(output, o));
    } else {
      OthersLive(s, output, o, i);
      EndAllEnds(EndOldest(s, output, o), output, o, i);
      EndedAfter(s, EndOldest(s, output, o), EndAll(s, output, o), i, Some(FinishEnding(output, o)));
    }
  }

  lemma ListedLive(s: Life, i: nat)
    requires Formed(s) && i in s.turns
    ensures s.turnOrder != []
  {
    assert Obeys(s, TurnLaw);
    assert i in s.turnOrder;
  }

  lemma OthersLive(s: Life, output: bool, o: Note, i: nat)
    requires Sound(s) && Bounded(s) && Delivering(s) && i in s.turns && s.turnOrder != [] && i != s.turnOrder[0]
    ensures var s1 := EndOldest(s, output, o);
      && Sound(s1) && Bounded(s1) && Delivering(s1) && |s1.turns| < |s.turns|
      && i in s1.turns && s1.turns[i] == s.turns[i]
  {
    EndOldestForms(s, output, o);
    EndOldestSheds(s, output, o);
    EndOldestTells(s, output, o);
    EndOldestUnended(s, output, o);
    assert i in EndOldest(s, output, o).turns.Keys;
  }

  lemma FinishedEnds(s: Life, k: Component, o: Note, i: nat)
    requires Sound(s) && Bounded(s) && Delivering(s) && i in s.turns
    ensures Ends(s, Finish(s, k, o), i, FinishEndsAs(s, k, o))
  {
    if k in s.finished || k.OtherComponent? {
      FinishIdles(s, k, o);
    } else {
      FirstFinishEnds(s, k, o, i);
    }
  }

  lemma FinishIdles(s: Life, k: Component, o: Note)
    requires Formed(s) && (k in s.finished || k.OtherComponent?)
    ensures Finish(s, k, o).turns == s.turns
  {
  }

  lemma FirstFinishEnds(s: Life, k: Component, o: Note, i: nat)
    requires Sound(s) && Bounded(s) && Delivering(s) && i in s.turns && k !in s.finished && !k.OtherComponent?
    ensures EndedAs(s, Finish(s, k, o), i, FinishEnding(k.AgentOutput?, o))
  {
    var s1 := s.(finished := s.finished + {k});
    FinishingSound(s, k);
    EndAllEnds(s1, k.AgentOutput?, o, i);
    EndedAfter(s, s1, EndAll(s1, k.AgentOutput?, o), i, Some(FinishEnding(k.AgentOutput?, o)));
  }

  lemma FinishingSound(s: Life, k: Component)
    requires Sound(s) && Bounded(s) && Delivering(s)
    ensures var s1 := s.(finished := s.finished + {k}); Sound(s1) && Bounded(s1) && Delivering(s1)
  {
    var s1 := s.(finished := s.finished + {k});
    SameForm(s, s1);
    SameTold(s, s1);
  }

  // ---------------------------------------------------------------------------------- steps

  lemma InputEnds(ids: seq<string>, s: Life, id: string, begins: bool, terminal: bool, o: Note, i: nat)
    requires Sound(s) && Bounded(s) && Tied(ids, s) && Delivering(s) && i in s.turns
    ensures var e := Input(id, begins, terminal, o); Ends(s, Step(s, e), i, EndsAs(ids, s, e, i))
  {
    var s1 := if begins then StartTurn(s, id) else s;
    if begins {
      StartEnds(ids, s, id, i);
    }
    TouchedEnds(s, s1, Heard(s1, id, terminal, o), i, EndsAs(ids, s, Input(id, begins, terminal, o), i));
  }

  lemma MarksLive(s: Life, e: Event, i: nat)
    requires Formed(s) && Bounded(s) && i in s.turns && (e.InputPush? || e.TransformStart? || e.Interrupt?)
    ensures i in Step(s, e).turns
  {
    match e
    case InputPush(id) => TouchedEnds(s, s, ObserveInputPush(s, id), i, None);
    case TransformStart(id) => TouchedEnds(s, s, ObserveTransformStarted(s, id), i, None);
    case Interrupt => TouchedEnds(s, s, ObserveInterrupt(s), i, None);
  }

  lemma StepEnds(ids: seq<string>, s: Life, e: Event, i: nat)
    requires Sound(s) && Bounded(s) && Tied(ids, s) && Delivering(s) && i in s.turns
    ensures Ends(s, Step(s, e), i, EndsAs(ids, s, e, i))
  {
    match e
    case Input(id, begins, terminal, o) => InputEnds(ids, s, id, begins, terminal, o, i);
    case InputPush(id) => MarksLive(s, e, i);
    case TransformStart(id) => MarksLive(s, e, i);
    case Interrupt => MarksLive(s, e, i);
    case Deliver(c, modal) => DeliverEnds(ids, s, c, modal, i);
    case Produce(c) => ProduceEnds(ids, s, c, i);
    case Drain(c) =>
      DrainIsStep(s, c);
      if c.epochEnd {
        DrainedEnds(ids, s, c, i);
      }
    case Finishes(k, o) =>
      FinishIsStep(s, k, o);
      FinishedEnds(s, k, o, i);
  }

  /** In every reachable state and for every event: a live turn ends exactly when a new BOS
      replaces it and the agent has nothing to deliver for it, when it has to make room as the
      oldest of 64 turns or as that of the oldest of 64 epochs, when the end of its output is
      drained after its agent has ended, or when a component finishes; and its records say so. */
  lemma TurnEndsIff(es: seq<Event>, e: Event, i: nat)
    requires i in Run(es).turns
    ensures Ends(Run(es), Run(es + [e]), i, EndsAs(Begun(es), Run(es), e, i))
  {
    RunSound(es);
    RunTied(es);
    LiveTurnsDeliver(es);
    RunExtends(es, e);
    StepEnds(Begun(es), Run(es), e, i);
  }

  /** There is at most one record of each stage of a turn. */
  lemma {:induction false} OneRecord(log: seq<Record>, i: nat, x: Stage, o: Note, p: Note)
    requires Distinct(Of(log, i)) && Record(i, x, o) in log && Record(i, x, p) in log
    ensures o == p
  {
    var pre, r := log[..|log| - 1], log[|log| - 1];
    assert log == pre + [r];
    StoryRecords(pre, i, x);
    if r.turn == i {
      LastDistinct(Of(pre, i), r.stage);
    }
    if !(r.turn == i && r.stage == x) {
      OneRecord(pre, i, x, o, p);
    }
  }

  lemma LastDistinct(h: seq<Stage>, x: Stage)
    requires Distinct(h + [x])
    ensures Distinct(h) && x !in h
  {
    forall k, l | 0 <= k < l < |h| ensures h[k] != h[l] {
      assert (h + [x])[k] == h[k] && (h + [x])[l] == h[l];
    }
    forall k | 0 <= k < |h| ensures h[k] != x {
      assert (h + [x])[k] == h[k] && (h + [x])[|h|] == x;
    }
  }

  /** So the records that TurnEndsIff and StoryIsTold name are the only ones of their stages. */
  lemma RecordsAreUnique(es: seq<Event>, i: nat, x: Stage, o: Note, p: Note)
    requires Record(i, x, o) in Run(es).log && Record(i, x, p) in Run(es).log
    ensures o == p
  {
    RunSound(es);
    assert TurnTold(Run(es), i);
    StoryRecords(Run(es).log, i, x);
    OneRecord(Run(es).log, i, x, o, p);
  }

  /** A component counts as finished exactly when a finish of it was observed. */
  lemma {:induction false} FinishedIsTold(es: seq<Event>, k: Component)
    ensures k in Run(es).finished <==> exists j :: 0 <= j < |es| && es[j].Finishes? && es[j].component == k
  {
    if es != [] {
      var pre, e := es[..|es| - 1], es[|es| - 1];
      assert es == pre + [e];
      FinishedIsTold(pre, k);
      StepFinished(Run(pre), e);
      if e.Finishes? && e.component == k {
        assert es[|es| - 1].component == k;
      }
    }
  }

  lemma StepFinished(s: Life, e: Event)
    requires Formed(s) && Bounded(s)
    ensures Step(s, e).finished == if e.Finishes? then s.finished + {e.component} else s.finished
  {
    match e
    case Input(id, begins, terminal, o) =>
      if begins {
        StartFinished(s, id);
      }
    case Deliver(c, modal) =>
      FindFinished(s, c);
      OutputTurnForms(s, c);
    case Produce(c) =>
      FindFinished(s, c);
      OutputTurnForms(s, c);
    case Drain(c) =>
      FindFinished(s, c);
      OutputTurnForms(s, c);
      DrainIsStep(s, c);
    case Finishes(k, o) =>
      FinishIsStep(s, k, o);
      FinishSheds(s, k, o);
    case _ =>
  }

  lemma StartFinished(s: Life, id: string)
    requires Formed(s)
    ensures StartTurn(s, id).finished == s.finished
  {
    ReplaceForms(s);
    NewTurnForms(ReplaceCurrent(s), id);
    EvictTurnsSheds(NewTurn(ReplaceCurrent(s), id));
  }

  lemma FindFinished(s: Life, c: Output)
    requires Formed(s) && Bounded(s)
    ensures OutputTurn(s, c).life.finished == s.finished
  {
    if c.epoch.Some? && c.epoch.value !in s.epochTurns {
      var e := c.epoch.value;
      var s1 := EvictEpochs(s, e.owner);
      EvictEpochsForms(s, e.owner);
      EvictEpochsSheds(s, e.owner);
      if Owned(s1, e.owner).Some? {
        BindKeeps(s1, e, c.streamID, Owned(s1, e.owner).value);
      }
    }
  }
}
