/** The flags of every live turn are what the events addressed to it say
    (pkgs/gizclaw/peer_stream_lifecycle.go). */
module LifecycleFlags {
  import opened Options
  import opened Lifecycles
  import opened LifecycleRuns
  import opened LifecycleSheds
  import opened LifecycleOwners
  import opened LifecycleTold
  import LifecycleEpochs

  /** Input was pushed to the agent, its transform began, it produced assistant output, and a
      newer BOS replaced the turn. */
  datatype Flags = Flags(pushed: bool, transformed: bool, assisted: bool, replaced: bool)

  const NO_FLAGS := Flags(false, false, false, false)

  function FlagsOf(t: Turn): (f: Flags) { Flags(t.inputPushed, t.transformStarted, t.epochBound, t.pending) }

  function Both(f: Flags, g: Flags): (r: Flags) {
    Flags(f.pushed || g.pushed, f.transformed || g.transformed, f.assisted || g.assisted, f.replaced || g.replaced)
  }

  /** The flags that event `e` sets on turn `i`, which is live in the state `s'` after it. */
  function Sets(ids: seq<string>, e: Event, s': Life, i: nat): (f: Flags) {
    if i !in s'.turns then NO_FLAGS
    else
      match e
      case Input(_, begins, _, _) => NO_FLAGS.(replaced := begins && i == |ids|)
      case InputPush(id) => NO_FLAGS.(pushed := i == Addressee(ids, s', id))
      case TransformStart(id) => NO_FLAGS.(transformed := i == Addressee(ids, s', id))
      case Produce(c) => NO_FLAGS.(assisted := c.assistant && ChunkTurn(s', c) == Some(i))
      case _ => NO_FLAGS
  }

  function FlagsAt(s: Life, i: nat): (f: Flags) { if i in s.turns then FlagsOf(s.turns[i]) else NO_FLAGS }

  lemma OnceFlags(s: Life, j: nat, x: Stage, o: Note, i: nat)
    requires j in s.turns
    ensures FlagsAt(Once(s, j, x, o), i) == FlagsAt(s, i)
  {
  }

  lemma EnsureFlags(s: Life, j: nat, o: Note, i: nat)
    requires j in s.turns
    ensures FlagsAt(EnsureAgentTerminal(s, j, o), i) == FlagsAt(s, i)
  {
    if !s.turns[j].agentTerminal {
      OnceFlags(Put(s, j, s.turns[j].(agentTerminal := true)), j, AgentTerminal, o, i);
    }
  }

  lemma PutFlags(s: Life, j: nat, t: Turn, f: Flags, i: nat)
    requires j in s.turns && FlagsOf(t) == Both(FlagsOf(s.turns[j]), f)
    ensures FlagsAt(Put(s, j, t), i) == Both(FlagsAt(s, i), if i == j then f else NO_FLAGS)
  {
  }

  lemma ReplaceFlags(ids: seq<string>, s: Life, i: nat)
    requires Formed(s) && Tied(ids, s) && i in ReplaceCurrent(s).turns
    ensures i in s.turns && FlagsAt(ReplaceCurrent(s), i) == Both(FlagsAt(s, i), NO_FLAGS.(replaced := i == |ids|))
  {
    ReplaceChanges(s);
    ReplaceKeys(s, i);
    if s.current in s.turns && AwaitsDelivery(s.turns[s.current]) {
      OnceFlags(s, s.current, Interrupted, InterruptedByInput, i);
    }
  }

  lemma StartFlags(ids: seq<string>, s: Life, id: string, i: nat)
    requires Formed(s) && Tied(ids, s) && i in StartTurn(s, id).turns
    ensures FlagsAt(StartTurn(s, id), i) == Both(FlagsAt(s, i), NO_FLAGS.(replaced := i == |ids|))
  {
    var s1 := ReplaceCurrent(s);
    var s2 := NewTurn(s1, id);
    ReplaceForms(s);
    NewTurnForms(s1, id);
    EvictTurnsSheds(s2);
    assert i in s2.turns.Keys;
    if i == |ids| + 1 {
      FreshIndex(s);
    } else {
      OldTurn(s1, id, i);
      ReplaceFlags(ids, s, i);
    }
  }

  lemma HeardFlags(s: Life, id: string, terminal: bool, o: Note, i: nat)
    ensures FlagsAt(Heard(s, id, terminal, o), i) == FlagsAt(s, i)
  {
    var j := InputTurn(s, id);
    if j.Some? {
      OnceFlags(s, j.value, InputFirst, Success, i);
      OnceFlags(Once(s, j.value, InputFirst, Success), j.value, InputTerminal, o, i);
    }
  }

  lemma InputFlags(ids: seq<string>, s: Life, id: string, begins: bool, terminal: bool, o: Note, i: nat)
    requires Formed(s) && Bounded(s) && Tied(ids, s)
    ensures var e := Input(id, begins, terminal, o);
      i in Step(s, e).turns ==> FlagsAt(Step(s, e), i) == Both(FlagsAt(s, i), Sets(ids, e, Step(s, e), i))
  {
    var s1 := if begins then StartTurn(s, id) else s;
    HeardFlags(s1, id, terminal, o, i);
    if begins && i in Heard(s1, id, terminal, o).turns {
      assert i in s1.turns.Keys;
      StartFlags(ids, s, id, i);
    }
  }

  lemma PushFlags(ids: seq<string>, s: Life, id: string, i: nat)
    requires Formed(s) && Bounded(s) && Tied(ids, s)
    ensures var e := InputPush(id);
      i in Step(s, e).turns ==> FlagsAt(Step(s, e), i) == Both(FlagsAt(s, i), Sets(ids, e, Step(s, e), i))
  {
    var j, s' := InputTurn(s, id), ObserveInputPush(s, id);
    AddresseeSame(ids, s, s', id);
    if j.Some? {
      PutFlags(s, j.value, s.turns[j.value].(inputPushed := true), NO_FLAGS.(pushed := true), i);
      OnceFlags(Put(s, j.value, s.turns[j.value].(inputPushed := true)), j.value, InputPushed, Success, i);
    }
  }

  lemma TransformFlags(ids: seq<string>, s: Life, id: string, i: nat)
    requires Formed(s) && Bounded(s) && Tied(ids, s)
    ensures var e := TransformStart(id);
      i in Step(s, e).turns ==> FlagsAt(Step(s, e), i) == Both(FlagsAt(s, i), Sets(ids, e, Step(s, e), i))
  {
    var j, s' := InputTurn(s, id), ObserveTransformStarted(s, id);
    AddresseeSame(ids, s, s', id);
    if j.Some? {
      PutFlags(s, j.value, s.turns[j.value].(transformStarted := true), NO_FLAGS.(transformed := true), i);
      OnceFlags(Put(s, j.value, s.turns[j.value].(transformStarted := true)), j.value, TransformStarted, Success, i);
    }
  }

  lemma DeliverFlags(s: Life, c: Output, modal: bool, i: nat)
    requires Formed(s) && Bounded(s)
    ensures var s' := ObserveDelivered(s, c, modal); i in s'.turns ==> FlagsAt(s', i) == FlagsAt(s, i)
  {
    var f, s' := OutputTurn(s, c), ObserveDelivered(s, c, modal);
    OutputTurnForms(s, c);
    if i in s'.turns {
      assert i in s'.turns.Keys;
      FindKeeps(s, c, i);
      if f.turn.Some? {
        OnceFlags(f.life, f.turn.value, OutputFirst, Success, i);
        OnceFlags(Once(f.life, f.turn.value, OutputFirst, Success), f.turn.value, Delivered, Success, i);
      }
    }
  }

  lemma MakeFlags(s: Life, j: nat, c: Output, i: nat)
    requires j in s.turns && i in s.turns
    ensures FlagsAt(Make(s, j, c), i) == Both(FlagsAt(s, i), NO_FLAGS.(assisted := c.assistant && i == j))
  {
    var s1 := if c.observable then Once(s, j, Produced, Success) else s;
    OnceFlags(s, j, Produced, Success, i);
    var s2 := Put(s1, j, s1.turns[j].(epochBound := true));
    EnsureFlags(s2, j, c.outcome, i);
  }

  lemma ProduceFlags(ids: seq<string>, s: Life, c: Output, i: nat)
    requires Formed(s) && Bounded(s)
    ensures var s' := ObserveProduced(s, c);
      i in s'.turns ==> FlagsAt(s', i) == Both(FlagsAt(s, i), Sets(ids, Produce(c), s', i))
  {
    var f, s' := OutputTurn(s, c), ObserveProduced(s, c);
    OutputTurnForms(s, c);
    if i in s'.turns {
      assert i in s'.turns.Keys;
      FindKeeps(s, c, i);
      if f.turn.Some? {
        MakeFlags(f.life, f.turn.value, c, i);
      }
    }
  }

  lemma DrainFlags(s: Life, c: Output, i: nat)
    requires Formed(s) && Bounded(s)
    ensures var s' := ObserveDrained(s, c); i in s'.turns ==> FlagsAt(s', i) == FlagsAt(s, i)
  {
    var s', f := ObserveDrained(s, c), OutputTurn(s, c);
    if i in s'.turns && c.epochEnd {
      OutputTurnForms(s, c);
      if s' != f.life {
        EndOutputSheds(f.life, c, f.turn.value);
        assert i in s'.turns.Keys;
      }
      FindKeeps(s, c, i);
    }
  }

  lemma StepFlags(ids: seq<string>, s: Life, e: Event, i: nat)
    requires Formed(s) && Bounded(s) && Tied(ids, s)
    ensures i in Step(s, e).turns ==> FlagsAt(Step(s, e), i) == Both(FlagsAt(s, i), Sets(ids, e, Step(s, e), i))
  {
    match e
    case Input(id, begins, terminal, o) => InputFlags(ids, s, id, begins, terminal, o, i);
    case InputPush(id) => PushFlags(ids, s, id, i);
    case TransformStart(id) => TransformFlags(ids, s, id, i);
    case Interrupt => InterruptFlags(s, i);
    case Deliver(c, modal) => DeliverFlags(s, c, modal, i);
    case Produce(c) => ProduceFlags(ids, s, c, i);
    case Drain(c) =>
      DrainIsStep(s, c);
      DrainFlags(s, c, i);
    case Finishes(k, o) => FinishFlags(s, k, o, i);
  }

  lemma InterruptFlags(s: Life, i: nat)
    ensures FlagsAt(ObserveInterrupt(s), i) == FlagsAt(s, i)
  {
    if s.current in s.turns {
      OnceFlags(s, s.current, Interrupted, ControlInterrupt, i);
    }
  }

  lemma FinishFlags(s: Life, k: Component, o: Note, i: nat)
    requires Formed(s) && Bounded(s)
    ensures var s' := Step(s, Finishes(k, o)); i in s'.turns ==> FlagsAt(s', i) == FlagsAt(s, i)
  {
    FinishIsStep(s, k, o);
    FinishSheds(s, k, o);
    assert i in Finish(s, k, o).turns ==> i in s.turns.Keys;
  }

  /** The flags that the events have set on turn `i`. */
  function AllSet(es: seq<Event>, i: nat): (f: Flags) {
    if es == [] then NO_FLAGS
    else Both(AllSet(es[..|es| - 1], i), Sets(Begun(es[..|es| - 1]), es[|es| - 1], Run(es), i))
  }

  lemma {:induction false} UnbornSet(es: seq<Event>, i: nat)
    requires i > |Begun(es)|
    ensures AllSet(es, i) == NO_FLAGS
  {
    RunTied(es);
    NotYet(Begun(es), Run(es), i);
    if es != [] {
      UnbornSet(es[..|es| - 1], i);
    }
  }

  /** In every reachable state the flags of a live turn are those that the events addressed to it
      have set, and a turn is marked as replaced exactly when it is not that of the last BOS. */
  lemma {:induction false} FlagsAreTold(es: seq<Event>, i: nat)
    ensures i in Run(es).turns ==> FlagsAt(Run(es), i) == AllSet(es, i) && (AllSet(es, i).replaced <==> i < |Begun(es)|)
  {
    if es != [] && i in Run(es).turns {
      var pre, e := es[..|es| - 1], es[|es| - 1];
      RunTied(pre);
      RunTied(es);
      StepFlags(Begun(pre), Run(pre), e, i);
      InRange(Begun(es), Run(es), i);
      if i in Run(pre).turns {
        InRange(Begun(pre), Run(pre), i);
        FlagsAreTold(pre, i);
      } else {
        BornNow(pre, e, i);
        UnbornSet(pre, i);
      }
    }
  }

  lemma InRange(ids: seq<string>, s: Life, i: nat)
    requires Formed(s) && Tied(ids, s) && i in s.turns
    ensures 1 <= i <= |ids|
  {
    assert Obeys(s, TurnLaw);
  }
}
