/** Turn tracking for a peer stream (pkgs/gizclaw/peer_stream_lifecycle.go) as a state
    machine. A turn starts at an input BOS, is found again through its input stream ID or
    through a response epoch, produces each kind of record at most once, and ends with an
    agent_terminal and a turn_terminal record. `log` is the order in which records are
    produced under the lock. */
module Lifecycles {
  import opened Options
  import opened Collections

  const MAX_TURNS: nat := 64
  const MAX_ROUTES: nat := 64

  datatype Stage =
    | TurnStarted | InputFirst | InputTerminal | InputPushed | TransformStarted | Interrupted
    | OutputFirst | Produced | Delivered | AgentTerminal | OutputTerminal | TurnTerminal

  /** The result and reason of a record; `Reported` is what an event, a chunk or a finish
      call says. */
  datatype Note =
    | Success | Accepted | ControlInterrupt | InterruptedByInput | Replaced | StateLimit
    | Reported(result: string, reason: string)

  datatype Record = Record(turn: nat, stage: Stage, outcome: Note)

  datatype Turn = Turn(
    seen: set<Stage>, inputPushed: bool, transformStarted: bool, epochBound: bool,
    agentTerminal: bool, outputTerminal: bool, pending: bool)

  /** A response epoch is an object: `id` is its identity. */
  datatype Epoch = Epoch(id: nat, owner: string)

  datatype Component = PeerInput | ServerTunnel | AgentOutput | OtherComponent(name: string)

  datatype Life = Life(
    nextIndex: nat, current: nat, turns: map<nat, Turn>, turnOrder: seq<nat>,
    inputTurns: map<string, nat>, outputTurns: map<string, nat>, outputOrder: seq<string>,
    epochTurns: map<Epoch, nat>, epochOrder: seq<Epoch>, finished: set<Component>, log: seq<Record>)

  function Start(): (s: Life) {
    Life(0, 0, map[], [], map[], map[], [], map[], [], {}, [])
  }

  // ----------------------------------------------------------------------- sequences

  /** The elements of `xs` that are in `keep`, in order. */
  function Keep<T(==)>(xs: seq<T>, keep: set<T>): (r: seq<T>)
    ensures |r| <= |xs|
  {
    if xs == [] then []
    else
      var r := Keep(xs[..|xs| - 1], keep);
      if xs[|xs| - 1] in keep then r + [xs[|xs| - 1]] else r
  }

  lemma {:induction false} KeepMembers<T>(xs: seq<T>, keep: set<T>)
    ensures forall x :: x in Keep(xs, keep) <==> x in xs && x in keep
  {
    if xs != [] {
      KeepMembers(xs[..|xs| - 1], keep);
      assert xs == xs[..|xs| - 1] + [xs[|xs| - 1]];
    }
  }

  lemma {:induction false} KeepDistinct<T(!new)>(xs: seq<T>, keep: set<T>)
    requires Distinct(xs)
    ensures Distinct(Keep(xs, keep))
  {
    if xs != [] {
      KeepDistinct(xs[..|xs| - 1], keep);
      KeepMembers(xs[..|xs| - 1], keep);
    }
  }

  lemma {:induction false} KeepAscending(xs: seq<nat>, keep: set<nat>)
    requires Ascending(xs)
    ensures Ascending(Keep(xs, keep))
  {
    if xs != [] {
      var pre, last := xs[..|xs| - 1], xs[|xs| - 1];
      KeepAscending(pre, keep);
      KeepMembers(pre, keep);
      var r := Keep(pre, keep);
      forall j | 0 <= j < |r| ensures r[j] < last {
        assert r[j] in pre;
        var k :| 0 <= k < |pre| && pre[k] == r[j];
        assert xs[k] < xs[|xs| - 1];
      }
    }
  }

  lemma AppendDistinct<T(!new)>(xs: seq<T>, x: T)
    requires Distinct(xs) && x !in xs
    ensures Distinct(xs + [x]) && forall y :: y in xs + [x] <==> y in xs || y == x
  {
  }

  lemma AppendAscending(xs: seq<nat>, n: nat)
    requires Ascending(xs) && forall y :: y in xs ==> y < n
    ensures Ascending(xs + [n]) && forall y :: y in xs + [n] <==> y in xs || y == n
  {
    forall k | 0 <= k < |xs| ensures xs[k] < n {
      assert xs[k] in xs;
    }
  }

  // ------------------------------------------------------------------ record and release

  function Say(s: Life, i: nat, stage: Stage, o: Note): (s': Life)
    ensures s.log <= s'.log
  {
    s.(log := s.log + [Record(i, stage, o)])
  }

  /** turnRecordOnceLocked and turnOutputRecordOnceLocked */
  function Once(s: Life, i: nat, stage: Stage, o: Note): (s': Life)
    requires i in s.turns
    ensures s'.turns.Keys == s.turns.Keys && s' == s.(turns := s'.turns, log := s'.log)
    ensures s.log <= s'.log
  {
    if stage in s.turns[i].seen then s
    else Say(Put(s, i, s.turns[i].(seen := s.turns[i].seen + {stage})), i, stage, o)
  }

  function Put(s: Life, i: nat, t: Turn): (s': Life)
    requires i in s.turns
    ensures s'.turns.Keys == s.turns.Keys && s' == s.(turns := s'.turns, log := s'.log)
    ensures s.log <= s'.log
  {
    s.(turns := s.turns[i := t])
  }

  /** The agent_terminal record of turn `i`, unless it has been observed. */
  function EnsureAgentTerminal(s: Life, i: nat, o: Note): (s': Life)
    requires i in s.turns
    ensures s'.turns.Keys == s.turns.Keys && s' == s.(turns := s'.turns, log := s'.log)
    ensures s.log <= s'.log
  {
    if s.turns[i].agentTerminal then s
    else Once(Put(s, i, s.turns[i].(agentTerminal := true)), i, AgentTerminal, o)
  }

  function Without<K>(m: map<K, nat>, i: nat): (r: map<K, nat>) {
    map k | k in m && m[k] != i :: m[k]
  }

  function Others(xs: seq<nat>, i: nat): (r: set<nat>) { (set x | x in xs) - {i} }

  /** releaseTurnLocked: the turn itself, its epochs, its routes. */
  function DropTurn(s: Life, i: nat): (s': Life)
    ensures s'.log == s.log
  {
    s.(turns := s.turns - {i},
       turnOrder := Keep(s.turnOrder, Others(s.turnOrder, i)),
       inputTurns := Without(s.inputTurns, i),
       current := if s.current == i then 0 else s.current)
  }

  function DropEpochs(s: Life, i: nat): (s': Life)
    ensures s'.log == s.log
  {
    var epochTurns := Without(s.epochTurns, i);
    s.(epochTurns := epochTurns, epochOrder := Keep(s.epochOrder, epochTurns.Keys))
  }

  function DropRoutes(s: Life, i: nat): (s': Life)
    ensures s'.log == s.log
  {
    var outputTurns := Without(s.outputTurns, i);
    s.(outputTurns := outputTurns, outputOrder := Keep(s.outputOrder, outputTurns.Keys))
  }

  function Release(s: Life, i: nat): (s': Life)
    ensures s.log <= s'.log
  {
    DropRoutes(DropEpochs(DropTurn(s, i), i), i)
  }

  function Terminate(s: Life, i: nat, o: Note): (s': Life)
    ensures s.log <= s'.log
  {
    Release(Say(s, i, TurnTerminal, o), i)
  }

  /** A turn that is cut short. */
  function End(s: Life, i: nat, agent: Note, o: Note): (s': Life)
    requires i in s.turns
    ensures s.log <= s'.log
  {
    Terminate(EnsureAgentTerminal(s, i, agent), i, o)
  }

  // ---------------------------------------------------------------------- well-formed

  /** turnOrder lists the live turns in increasing order. */
  ghost predicate Listed(s: Life) {
    && Ascending(s.turnOrder)
    && (forall i :: i in s.turnOrder <==> i in s.turns)
    && (forall i :: i in s.turns ==> 1 <= i <= s.nextIndex)
  }

  /** Every index names a live turn, and no two input streams share one. */
  ghost predicate Linked(s: Life) {
    && (s.current == 0 || s.current in s.turns)
    && (forall k :: k in s.inputTurns ==> s.inputTurns[k] in s.turns)
    && (forall k, l :: k in s.inputTurns && l in s.inputTurns && s.inputTurns[k] == s.inputTurns[l] ==> k == l)
    && (forall k :: k in s.outputTurns ==> s.outputTurns[k] in s.turns && k in s.outputOrder)
  }

  /** epochOrder lists the bound epochs once each. */
  ghost predicate Epochs(s: Life) {
    && Distinct(s.epochOrder)
    && (forall e :: e in s.epochOrder <==> e in s.epochTurns)
    && (forall e :: e in s.epochTurns ==> s.epochTurns[e] in s.turns)
  }

  datatype Law = TurnLaw | LinkLaw | EpochLaw

  ghost predicate Obeys(s: Life, law: Law) {
    match law
    case TurnLaw => Listed(s)
    case LinkLaw => Linked(s)
    case EpochLaw => Epochs(s)
  }

  ghost predicate Formed(s: Life) { forall law :: Obeys(s, law) }

  ghost predicate Bounded(s: Life) {
    |s.turns| <= MAX_TURNS && |s.epochTurns| <= MAX_ROUTES && |s.outputTurns| <= MAX_ROUTES
  }

  /** The form does not depend on what the turns and the log hold. */
  lemma SameForm(s: Life, s': Life)
    requires Formed(s) && s'.turns.Keys == s.turns.Keys
    requires s' == s.(turns := s'.turns, log := s'.log, finished := s'.finished)
    ensures Formed(s') && |s'.turns| == |s.turns|
  {
    assert Obeys(s, TurnLaw);
    assert Obeys(s, LinkLaw);
    assert Obeys(s, EpochLaw);
    assert forall i :: i in s.turns <==> i in s'.turns.Keys;
    assert |s'.turns| == |s'.turns.Keys|;
  }

  lemma ReleaseListed(s: Life, i: nat)
    requires Listed(s)
    ensures Listed(Release(s, i))
  {
    KeepMembers(s.turnOrder, Others(s.turnOrder, i));
    KeepAscending(s.turnOrder, Others(s.turnOrder, i));
  }

  lemma ReleaseLinked(s: Life, i: nat)
    requires Linked(s)
    ensures Linked(Release(s, i))
  {
    KeepMembers(s.outputOrder, Without(s.outputTurns, i).Keys);
  }

  lemma ReleaseEpochs(s: Life, i: nat)
    requires Epochs(s)
    ensures Epochs(Release(s, i))
  {
    KeepMembers(s.epochOrder, Without(s.epochTurns, i).Keys);
    KeepDistinct(s.epochOrder, Without(s.epochTurns, i).Keys);
  }

  lemma ReleaseForms(s: Life, i: nat)
    requires Formed(s) && i in s.turns
    ensures Formed(Release(s, i)) && |Release(s, i).turns| == |s.turns| - 1
    ensures |Release(s, i).outputTurns| <= |s.outputTurns| && |Release(s, i).epochTurns| <= |s.epochTurns|
    ensures i in s.epochTurns.Values ==> |Release(s, i).epochTurns| < |s.epochTurns|
  {
    assert Obeys(s, TurnLaw);
    assert Obeys(s, LinkLaw);
    assert Obeys(s, EpochLaw);
    ReleaseListed(s, i);
    ReleaseLinked(s, i);
    ReleaseEpochs(s, i);
    assert Release(s, i).turns.Keys == s.turns.Keys - {i};
    WithoutShrinks(s.outputTurns, i);
    WithoutShrinks(s.epochTurns, i);
  }

  lemma WithoutShrinks<K>(m: map<K, nat>, i: nat)
    ensures |Without(m, i)| <= |m|
    ensures i in m.Values ==> |Without(m, i)| < |m|
  {
    var keys := Without(m, i).Keys;
    assert keys <= m.Keys;
    if i in m.Values {
      var k :| k in m && m[k] == i;
      assert keys <= m.Keys - {k};
      Fewer(keys, m.Keys - {k});
    }
    Fewer(keys, m.Keys);
  }

  lemma TerminateForms(s: Life, i: nat, o: Note)
    requires Formed(s) && i in s.turns
    ensures var s' := Terminate(s, i, o);
      && Formed(s') && |s'.turns| == |s.turns| - 1 && s'.turns.Keys == s.turns.Keys - {i}
      && |s'.outputTurns| <= |s.outputTurns| && |s'.epochTurns| <= |s.epochTurns|
      && (i in s.epochTurns.Values ==> |s'.epochTurns| < |s.epochTurns|)
  {
    SameForm(s, Say(s, i, TurnTerminal, o));
    ReleaseForms(Say(s, i, TurnTerminal, o), i);
  }

  lemma EndForms(s: Life, i: nat, agent: Note, o: Note)
    requires Formed(s) && i in s.turns
    ensures var s' := End(s, i, agent, o);
      && Formed(s') && |s'.turns| == |s.turns| - 1 && s'.turns.Keys == s.turns.Keys - {i}
      && |s'.outputTurns| <= |s.outputTurns| && |s'.epochTurns| <= |s.epochTurns|
      && (i in s.epochTurns.Values ==> |s'.epochTurns| < |s.epochTurns|)
  {
    var s1 := EnsureAgentTerminal(s, i, agent);
    SameForm(s, s1);
    TerminateForms(s1, i, o);
  }

  // ----------------------------------------------------------------------- operations

  /** The loop that ends the oldest turns while there are too many. */
  function EvictTurns(s: Life): (s': Life)
    requires Formed(s)
    ensures s.log <= s'.log
    decreases |s.turns|
  {
    assert Obeys(s, TurnLaw);
    if |s.turns| <= MAX_TURNS || s.turnOrder == [] then s
    else
      EndForms(s, s.turnOrder[0], StateLimit, StateLimit);
      EvictTurns(End(s, s.turnOrder[0], StateLimit, StateLimit))
  }

  /** The agent may still deliver output for the turn. */
  predicate AwaitsDelivery(t: Turn) {
    t.inputPushed || t.transformStarted || t.epochBound || (t.agentTerminal && !t.outputTerminal)
  }

  /** What a new BOS does to the turn that is current. */
  function ReplaceCurrent(s: Life): (s': Life)
    ensures s.log <= s'.log
  {
    if s.current !in s.turns then s
    else
      var i := s.current;
      var s1 := Once(s, i, Interrupted, InterruptedByInput);
      if AwaitsDelivery(s1.turns[i]) then Put(s1, i, s1.turns[i].(pending := true))
      else End(s1, i, InterruptedByInput, Replaced)
  }

  function NewTurn(s: Life, streamID: string): (s': Life)
    ensures s.log <= s'.log
  {
    var i := s.nextIndex + 1;
    var t := Turn({TurnStarted}, false, false, false, false, false, false);
    Say(s.(nextIndex := i, current := i, turns := s.turns[i := t], turnOrder := s.turnOrder + [i],
           inputTurns := if streamID == "" then s.inputTurns else s.inputTurns[streamID := i]),
        i, TurnStarted, Accepted)
  }

  lemma ReplaceForms(s: Life)
    requires Formed(s)
    ensures var s' := ReplaceCurrent(s);
      && Formed(s') && |s'.turns| <= |s.turns| && s'.nextIndex == s.nextIndex
      && |s'.outputTurns| <= |s.outputTurns| && |s'.epochTurns| <= |s.epochTurns|
  {
    if s.current in s.turns {
      var s1 := Once(s, s.current, Interrupted, InterruptedByInput);
      SameForm(s, s1);
      if AwaitsDelivery(s1.turns[s.current]) {
        SameForm(s, ReplaceCurrent(s));
      } else {
        EndForms(s1, s.current, InterruptedByInput, Replaced);
      }
    }
  }

  lemma FreshIndex(s: Life)
    requires Formed(s)
    ensures s.nextIndex + 1 !in s.turns
  {
    assert Obeys(s, TurnLaw);
  }

  lemma NewTurnForms(s: Life, streamID: string)
    requires Formed(s)
    ensures Formed(NewTurn(s, streamID)) && |NewTurn(s, streamID).turns| == |s.turns| + 1
  {
    FreshIndex(s);
    NewTurnAdds(s, streamID);
    NewTurnObeys(s, NewTurn(s, streamID), streamID);
  }

  lemma NewTurnAdds(s: Life, streamID: string)
    requires s.nextIndex + 1 !in s.turns
    ensures NewTurn(s, streamID).turns.Keys == s.turns.Keys + {s.nextIndex + 1}
    ensures |NewTurn(s, streamID).turns| == |s.turns| + 1
  {
    assert NewTurn(s, streamID).turns.Keys == s.turns.Keys + {s.nextIndex + 1};
  }

  lemma NewTurnObeys(s: Life, s': Life, streamID: string)
    requires Formed(s) && s'.nextIndex == s'.current == s.nextIndex + 1
    requires s'.turns.Keys == s.turns.Keys + {s'.nextIndex} && s'.nextIndex !in s.turns.Keys
    requires s'.turnOrder == s.turnOrder + [s'.nextIndex]
    requires s'.inputTurns == s.inputTurns || s'.inputTurns == s.inputTurns[streamID := s'.current]
    requires s'.outputTurns == s.outputTurns && s'.outputOrder == s.outputOrder
    requires s'.epochTurns == s.epochTurns && s'.epochOrder == s.epochOrder
    ensures Formed(s')
  {
    forall law ensures Obeys(s', law) {
      assert Obeys(s, law);
      match law
      case TurnLaw => NewTurnListed(s, s');
      case LinkLaw => NewTurnLinked(s, s', streamID);
      case EpochLaw => assert forall i :: i in s.turns ==> i in s'.turns.Keys;
    }
  }

  lemma NewTurnLinked(s: Life, s': Life, streamID: string)
    requires Linked(s) && s'.turns.Keys == s.turns.Keys + {s'.current} && s'.current !in s.turns.Keys
    requires s'.inputTurns == s.inputTurns || s'.inputTurns == s.inputTurns[streamID := s'.current]
    requires s'.outputTurns == s.outputTurns && s'.outputOrder == s.outputOrder
    ensures Linked(s')
  {
    assert forall i :: i in s'.turns <==> i in s'.turns.Keys;
  }

  lemma NewTurnListed(s: Life, s': Life)
    requires Listed(s) && s'.nextIndex == s.nextIndex + 1 && s'.turns.Keys == s.turns.Keys + {s'.nextIndex}
    requires s'.turnOrder == s.turnOrder + [s'.nextIndex]
    ensures Listed(s')
  {
    AppendAscending(s.turnOrder, s'.nextIndex);
    assert forall i :: i in s'.turns <==> i in s'.turns.Keys;
  }

  /** startTurnLocked */
  function StartTurn(s: Life, streamID: string): (s': Life)
    requires Formed(s)
    ensures s.log <= s'.log
  {
    ReplaceForms(s);
    NewTurnForms(ReplaceCurrent(s), streamID);
    EvictTurns(NewTurn(ReplaceCurrent(s), streamID))
  }

  function InputTurn(s: Life, streamID: string): (i: Option<nat>)
    ensures i.Some? ==> i.value in s.turns
  {
    if streamID != "" && streamID in s.inputTurns && s.inputTurns[streamID] in s.turns then Some(s.inputTurns[streamID])
    else if s.current in s.turns then Some(s.current)
    else None
  }

  /** The turn that the input stream `owner` started, while it lives. */
  function Owned(s: Life, owner: string): (i: Option<nat>)
    ensures i.Some? ==> i.value in s.turns
  {
    if owner != "" && owner in s.inputTurns && s.inputTurns[owner] in s.turns
    then Some(s.inputTurns[owner]) else None
  }

  /** The loop that ends the turns of the oldest epochs while there are too many. */
  function EvictEpochs(s: Life, owner: string): (s': Life)
    requires Formed(s)
    ensures s.log <= s'.log
    decreases |s.epochTurns|
  {
    assert Obeys(s, EpochLaw);
    if |s.epochTurns| < MAX_ROUTES || s.epochOrder == [] || Owned(s, owner).None? then s
    else
      var i := s.epochTurns[s.epochOrder[0]];
      assert i in s.epochTurns.Values;
      EndForms(s, i, StateLimit, StateLimit);
      EvictEpochs(End(s, i, StateLimit, StateLimit), owner)
  }

  function TrimRoutes(s: Life): (s': Life)
    ensures s.log <= s'.log
    decreases |s.outputOrder|
  {
    if |s.outputTurns| <= MAX_ROUTES || s.outputOrder == [] then s
    else TrimRoutes(s.(outputOrder := s.outputOrder[1..], outputTurns := s.outputTurns - {s.outputOrder[0]}))
  }

  function BindRoute(s: Life, streamID: string, i: nat): (s': Life)
    ensures s.log <= s'.log
  {
    if streamID == "" then s
    else TrimRoutes(s.(outputTurns := s.outputTurns[streamID := i], outputOrder := s.outputOrder + [streamID]))
  }

  function BindEpoch(s: Life, e: Epoch, i: nat): (s': Life)
    ensures s.log <= s'.log
  {
    s.(epochTurns := s.epochTurns[e := i], epochOrder := s.epochOrder + [e])
  }

  /** An output chunk as the lifecycle sees it. */
  datatype Output = Output(
    epoch: Option<Epoch>, streamID: string, epochEnd: bool, observable: bool, assistant: bool, outcome: Note)

  datatype Found = Found(life: Life, turn: Option<nat>)

  /** outputTurnLocked */
  function OutputTurn(s: Life, c: Output): (f: Found)
    requires Formed(s)
    ensures s.log <= f.life.log
  {
    if c.epoch.None? then Found(s, None)
    else
      var e := c.epoch.value;
      if e in s.epochTurns then Found(s, Some(s.epochTurns[e]))
      else if Owned(s, e.owner).None? then Found(s, None)
      else
        var s1 := EvictEpochs(s, e.owner);
        var i := Owned(s1, e.owner);
        if i.None? then Found(s1, None)
        else Found(BindRoute(BindEpoch(s1, e, i.value), c.streamID, i.value), i)
  }

  // ------------------------------------------------------------ operations keep the form

  lemma {:induction false} EvictTurnsForms(s: Life)
    requires Formed(s)
    ensures var s' := EvictTurns(s);
      && Formed(s') && |s'.turns| <= MAX_TURNS
      && |s'.outputTurns| <= |s.outputTurns| && |s'.epochTurns| <= |s.epochTurns|
    decreases |s.turns|
  {
    assert Obeys(s, TurnLaw);
    if |s.turns| > MAX_TURNS {
      OrderNotEmpty(s);
      EndForms(s, s.turnOrder[0], StateLimit, StateLimit);
      EvictTurnsForms(End(s, s.turnOrder[0], StateLimit, StateLimit));
    }
  }

  lemma OrderNotEmpty(s: Life)
    requires Listed(s) && |s.turns| > 0
    ensures s.turnOrder != [] && s.turnOrder[0] in s.turns
  {
    var i :| i in s.turns.Keys;
  }

  lemma StartTurnForms(s: Life, streamID: string)
    requires Formed(s) && Bounded(s)
    ensures Formed(StartTurn(s, streamID)) && Bounded(StartTurn(s, streamID))
  {
    var s1 := ReplaceCurrent(s);
    ReplaceForms(s);
    NewTurnForms(s1, streamID);
    EvictTurnsForms(NewTurn(s1, streamID));
  }

  lemma {:induction false} EvictEpochsForms(s: Life, owner: string)
    requires Formed(s)
    ensures var s' := EvictEpochs(s, owner);
      && Formed(s') && (Owned(s', owner).Some? ==> |s'.epochTurns| < MAX_ROUTES)
      && |s'.turns| <= |s.turns| && |s'.outputTurns| <= |s.outputTurns| && |s'.epochTurns| <= |s.epochTurns|
      && s'.epochTurns.Keys <= s.epochTurns.Keys
    decreases |s.epochTurns|
  {
    assert Obeys(s, EpochLaw);
    if !(|s.epochTurns| < MAX_ROUTES || Owned(s, owner).None?) {
      var e :| e in s.epochTurns.Keys;
      assert e in s.epochOrder;
      var i := s.epochTurns[s.epochOrder[0]];
      assert i in s.epochTurns.Values;
      EndForms(s, i, StateLimit, StateLimit);
      EvictEpochsForms(End(s, i, StateLimit, StateLimit), owner);
    }
  }

  lemma DropRouteForms(s: Life, s': Life)
    requires Formed(s) && s.outputOrder != []
    requires s' == s.(outputOrder := s.outputOrder[1..], outputTurns := s.outputTurns - {s.outputOrder[0]})
    ensures Formed(s')
  {
    assert Obeys(s, TurnLaw);
    assert Obeys(s, LinkLaw);
    assert Obeys(s, EpochLaw);
  }

  lemma {:induction false} TrimRoutesForms(s: Life)
    requires Formed(s)
    ensures Formed(TrimRoutes(s)) && |TrimRoutes(s).outputTurns| <= MAX_ROUTES
    ensures TrimRoutes(s) == s.(outputTurns := TrimRoutes(s).outputTurns, outputOrder := TrimRoutes(s).outputOrder)
    decreases |s.outputOrder|
  {
    assert Obeys(s, LinkLaw);
    if |s.outputTurns| > MAX_ROUTES {
      var k :| k in s.outputTurns.Keys;
      assert k in s.outputOrder;
      var s1 := s.(outputOrder := s.outputOrder[1..], outputTurns := s.outputTurns - {s.outputOrder[0]});
      DropRouteForms(s, s1);
      TrimRoutesForms(s1);
    }
  }

  lemma BindEpochForms(s: Life, e: Epoch, i: nat)
    requires Formed(s) && i in s.turns && e !in s.epochTurns
    ensures Formed(BindEpoch(s, e, i)) && |BindEpoch(s, e, i).epochTurns| == |s.epochTurns| + 1
  {
    var s' := BindEpoch(s, e, i);
    forall law ensures Obeys(s', law) {
      assert Obeys(s, law);
      if law == EpochLaw {
        BoundEpochs(s, s', e, i);
      }
    }
    EpochCounts(s, e, i);
  }

  lemma EpochCounts(s: Life, e: Epoch, i: nat)
    requires e !in s.epochTurns
    ensures |BindEpoch(s, e, i).epochTurns| == |s.epochTurns| + 1
  {
    assert BindEpoch(s, e, i).epochTurns.Keys == s.epochTurns.Keys + {e};
  }

  lemma BoundEpochs(s: Life, s': Life, e: Epoch, i: nat)
    requires Epochs(s) && i in s.turns && e !in s.epochTurns
    requires s'.turns == s.turns && s'.epochTurns == s.epochTurns[e := i] && s'.epochOrder == s.epochOrder + [e]
    ensures Epochs(s')
  {
    AppendDistinct(s.epochOrder, e);
  }

  lemma BindRouteForms(s: Life, streamID: string, i: nat)
    requires Formed(s) && i in s.turns && |s.outputTurns| <= MAX_ROUTES
    ensures var s' := BindRoute(s, streamID, i);
      && Formed(s') && |s'.outputTurns| <= MAX_ROUTES
      && s' == s.(outputTurns := s'.outputTurns, outputOrder := s'.outputOrder)
  {
    assert Obeys(s, TurnLaw);
    assert Obeys(s, LinkLaw);
    assert Obeys(s, EpochLaw);
    if streamID != "" {
      TrimRoutesForms(s.(outputTurns := s.outputTurns[streamID := i], outputOrder := s.outputOrder + [streamID]));
    }
  }

  lemma BindForms(s: Life, e: Epoch, streamID: string, i: nat)
    requires Formed(s) && Bounded(s) && |s.epochTurns| < MAX_ROUTES && i in s.turns && e !in s.epochTurns
    ensures var s' := BindRoute(BindEpoch(s, e, i), streamID, i);
      Formed(s') && Bounded(s') && s'.turns == s.turns && s'.log == s.log && s'.nextIndex == s.nextIndex
  {
    BindEpochForms(s, e, i);
    BindRouteForms(BindEpoch(s, e, i), streamID, i);
  }

  lemma OutputTurnForms(s: Life, c: Output)
    requires Formed(s) && Bounded(s)
    ensures var f := OutputTurn(s, c);
      Formed(f.life) && Bounded(f.life) && (f.turn.Some? ==> f.turn.value in f.life.turns)
  {
    assert Obeys(s, EpochLaw);
    if c.epoch.Some? && c.epoch.value !in s.epochTurns {
      var e := c.epoch.value;
      var s1 := EvictEpochs(s, e.owner);
      EvictEpochsForms(s, e.owner);
      var i := Owned(s1, e.owner);
      if i.Some? {
        BindForms(s1, e, c.streamID, i.value);
      }
    }
  }

  // --------------------------------------------------------------------------- events

  /** observeInput */
  function ObserveInput(s: Life, streamID: string, begins: bool, terminal: bool, o: Note): (s': Life)
    requires Formed(s)
    ensures s.log <= s'.log
  {
    Heard(if begins then StartTurn(s, streamID) else s, streamID, terminal, o)
  }

  function Heard(s: Life, streamID: string, terminal: bool, o: Note): (s': Life)
    ensures s.log <= s'.log
    ensures s'.turns.Keys == s.turns.Keys && s' == s.(turns := s'.turns, log := s'.log)
  {
    var i := InputTurn(s, streamID);
    if i.None? then s else Hear(s, i.value, terminal, o)
  }

  function Hear(s: Life, i: nat, terminal: bool, o: Note): (s': Life)
    requires i in s.turns
    ensures s'.turns.Keys == s.turns.Keys && s' == s.(turns := s'.turns, log := s'.log)
    ensures s.log <= s'.log
  {
    var s1 := Once(s, i, InputFirst, Success);
    if terminal then Once(s1, i, InputTerminal, o) else s1
  }

  function ObserveInputPush(s: Life, streamID: string): (s': Life)
    ensures s.log <= s'.log
  {
    var i := InputTurn(s, streamID);
    if i.None? then s
    else Once(Put(s, i.value, s.turns[i.value].(inputPushed := true)), i.value, InputPushed, Success)
  }

  function ObserveTransformStarted(s: Life, streamID: string): (s': Life)
    ensures s.log <= s'.log
  {
    var i := InputTurn(s, streamID);
    if i.None? then s
    else Once(Put(s, i.value, s.turns[i.value].(transformStarted := true)), i.value, TransformStarted, Success)
  }

  function ObserveInterrupt(s: Life): (s': Life)
    ensures s.log <= s'.log
  {
    if s.current in s.turns then Once(s, s.current, Interrupted, ControlInterrupt) else s
  }

  /** A peer event made from chunk `c` was delivered; `modal` if it has an output modality. */
  function ObserveDelivered(s: Life, c: Output, modal: bool): (s': Life)
    requires Formed(s) && Bounded(s)
    ensures s.log <= s'.log
  {
    OutputTurnForms(s, c);
    var f := OutputTurn(s, c);
    if f.turn.None? then f.life else Hand(f.life, f.turn.value, c.observable && modal)
  }

  function Hand(s: Life, i: nat, modal: bool): (s': Life)
    requires i in s.turns
    ensures s'.turns.Keys == s.turns.Keys && s' == s.(turns := s'.turns, log := s'.log)
    ensures s.log <= s'.log
  {
    var s1 := Once(s, i, OutputFirst, Success);
    if modal then Once(s1, i, Delivered, Success) else s1
  }

  function ObserveProduced(s: Life, c: Output): (s': Life)
    requires Formed(s) && Bounded(s)
    ensures s.log <= s'.log
  {
    OutputTurnForms(s, c);
    var f := OutputTurn(s, c);
    if f.turn.None? then f.life else Make(f.life, f.turn.value, c)
  }

  function Make(s: Life, i: nat, c: Output): (s': Life)
    requires i in s.turns
    ensures s'.turns.Keys == s.turns.Keys && s' == s.(turns := s'.turns, log := s'.log)
    ensures s.log <= s'.log
  {
    var s1 := if c.observable then Once(s, i, Produced, Success) else s;
    if !c.assistant then s1
    else
      var s2 := Put(s1, i, s1.turns[i].(epochBound := true));
      if c.epochEnd then EnsureAgentTerminal(s2, i, c.outcome) else s2
  }

  function Finalize(s: Life, i: nat, o: Note): (s': Life)
    requires i in s.turns
    ensures s'.turns.Keys == s.turns.Keys && s' == s.(turns := s'.turns, log := s'.log)
    ensures s.log <= s'.log
  {
    Once(Put(s, i, s.turns[i].(outputTerminal := true)), i, OutputTerminal, o)
  }

  /** The output of turn `i` has been delivered to the end. */
  function EndOutput(s: Life, c: Output, i: nat): (s': Life)
    requires i in s.turns
    ensures s.log <= s'.log
  {
    var s1 := Finalize(s, i, c.outcome);
    var s2 := s1.(outputTurns := s1.outputTurns - {c.streamID});
    Terminate(s2, i, if s2.turns[i].pending then Replaced else c.outcome)
  }

  function ObserveDrained(s: Life, c: Output): (s': Life)
    requires Formed(s) && Bounded(s)
    ensures s.log <= s'.log
  {
    if !c.epochEnd then s
    else
      OutputTurnForms(s, c);
      var f := OutputTurn(s, c);
      if f.turn.Some? && f.life.turns[f.turn.value].agentTerminal && !f.life.turns[f.turn.value].outputTerminal
      then EndOutput(f.life, c, f.turn.value) else f.life
  }

  /** What finish does to the oldest turn: only agent_output also ends its output. */
  function EndOldest(s: Life, output: bool, o: Note): (s': Life)
    requires Formed(s) && s.turnOrder != []
    ensures s.log <= s'.log
  {
    assert Obeys(s, TurnLaw);
    var i := s.turnOrder[0];
    var s1 := EnsureAgentTerminal(s, i, o);
    var s2 := if output then Finalize(s1, i, o) else s1;
    Terminate(s2, i, o)
  }

  lemma EndOldestForms(s: Life, output: bool, o: Note)
    requires Formed(s) && s.turnOrder != []
    ensures var s' := EndOldest(s, output, o);
      && Formed(s') && |s'.turns| == |s.turns| - 1 && s'.turns.Keys == s.turns.Keys - {s.turnOrder[0]}
      && |s'.outputTurns| <= |s.outputTurns| && |s'.epochTurns| <= |s.epochTurns|
  {
    assert Obeys(s, TurnLaw);
    var i := s.turnOrder[0];
    var s1 := EnsureAgentTerminal(s, i, o);
    var s2 := if output then Finalize(s1, i, o) else s1;
    SameForm(s, s2);
    TerminateForms(s2, i, o);
  }

  /** terminateAllTurnsLocked and terminateOutputTurnsLocked */
  function EndAll(s: Life, output: bool, o: Note): (s': Life)
    requires Formed(s)
    ensures s.log <= s'.log
    decreases |s.turns|
  {
    assert Obeys(s, TurnLaw);
    if s.turnOrder == [] then s
    else
      EndOldestForms(s, output, o);
      EndAll(EndOldest(s, output, o), output, o)
  }

  function Finish(s: Life, component: Component, o: Note): (s': Life)
    requires Formed(s)
    ensures s.log <= s'.log
  {
    if component in s.finished then s
    else
      var s1 := s.(finished := s.finished + {component});
      SameForm(s, s1);
      if component.OtherComponent? then s1 else EndAll(s1, component.AgentOutput?, o)
  }

  lemma {:induction false} EndAllForms(s: Life, output: bool, o: Note)
    requires Formed(s) && Bounded(s)
    ensures var s' := EndAll(s, output, o); Formed(s') && Bounded(s') && s'.turns == map[] && s'.nextIndex == s.nextIndex
    decreases |s.turns|
  {
    assert Obeys(s, TurnLaw);
    if s.turnOrder == [] {
      assert s.turns.Keys == {};
    } else {
      EndOldestForms(s, output, o);
      EndAllForms(EndOldest(s, output, o), output, o);
    }
  }

  lemma EndOutputForms(s: Life, c: Output, i: nat)
    requires Formed(s) && Bounded(s) && i in s.turns
    ensures Formed(EndOutput(s, c, i)) && Bounded(EndOutput(s, c, i))
  {
    var s1 := Finalize(s, i, c.outcome);
    var s2 := s1.(outputTurns := s1.outputTurns - {c.streamID});
    SameForm(s, s1);
    FewerRoutes(s1, s2);
    TerminateForms(s2, i, if s2.turns[i].pending then Replaced else c.outcome);
  }

  lemma FewerRoutes(s: Life, s': Life)
    requires Formed(s) && s' == s.(outputTurns := s'.outputTurns)
    requires s'.outputTurns.Keys <= s.outputTurns.Keys
    requires forall k :: k in s'.outputTurns ==> s'.outputTurns[k] == s.outputTurns[k]
    ensures Formed(s') && |s'.outputTurns| <= |s.outputTurns|
  {
    assert Obeys(s, TurnLaw);
    assert Obeys(s, LinkLaw);
    assert Obeys(s, EpochLaw);
    Fewer(s'.outputTurns.Keys, s.outputTurns.Keys);
    assert Linked(s');
  }
}
