/** Which turn each index names, told from the events: turn `i` is that of the i-th BOS, input
    streams and response epochs name the turn of their stream ID
    (pkgs/gizclaw/peer_stream_lifecycle.go). */
module LifecycleOwners {
  import opened Options
  import opened Collections
  import opened Lifecycles
  import opened LifecycleRuns
  import opened LifecycleSheds

  /** The stream IDs of the BOS so far. */
  function Begun(es: seq<Event>): (ids: seq<string>) {
    if es == [] then [] else Begin(Begun(es[..|es| - 1]), es[|es| - 1])
  }

  function Begin(ids: seq<string>, e: Event): (ids': seq<string>) {
    if e.Input? && e.begins then ids + [e.streamID] else ids
  }

  /** The turn of the last BOS of stream `id`, or 0. */
  function LastOf(ids: seq<string>, id: string): (i: nat)
    ensures i <= |ids|
  {
    if ids == [] then 0
    else if ids[|ids| - 1] == id then |ids|
    else LastOf(ids[..|ids| - 1], id)
  }

  lemma {:induction false} LastOfIsLast(ids: seq<string>, id: string)
    ensures LastOf(ids, id) == 0 <==> id !in ids
    ensures LastOf(ids, id) > 0 ==> ids[LastOf(ids, id) - 1] == id
    ensures forall k :: LastOf(ids, id) <= k < |ids| ==> ids[k] != id
  {
    if ids != [] && ids[|ids| - 1] != id {
      LastOfIsLast(ids[..|ids| - 1], id);
    }
  }

  lemma LastOfGrows(ids: seq<string>, id: string)
    ensures forall k :: LastOf(ids + [id], k) == if k == id then |ids| + 1 else LastOf(ids, k)
  {
    assert (ids + [id])[..|ids + [id]| - 1] == ids;
  }

  // ------------------------------------------------------------------------------ invariants

  /** An input stream is known exactly while its last turn lives, and by that turn. */
  ghost predicate InputsTied(ids: seq<string>, s: Life) {
    && |ids| == s.nextIndex
    && (forall id :: id in s.inputTurns <==> id != "" && LastOf(ids, id) in s.turns)
    && (forall id :: id in s.inputTurns ==> s.inputTurns[id] == LastOf(ids, id))
  }

  /** The current turn is that of the last BOS, while it lives. */
  ghost predicate CurrentTied(ids: seq<string>, s: Life) {
    s.current == if |ids| in s.turns then |ids| else 0
  }

  /** Epoch `e` is bound to a turn of the stream that owns it. */
  ghost predicate EpochTied(ids: seq<string>, s: Life, e: Epoch) {
    e in s.epochTurns ==> e.owner != "" && 1 <= s.epochTurns[e] <= |ids| && ids[s.epochTurns[e] - 1] == e.owner
  }

  ghost predicate EpochsTied(ids: seq<string>, s: Life) { forall e :: EpochTied(ids, s, e) }

  ghost predicate Tied(ids: seq<string>, s: Life) {
    0 !in s.turns && InputsTied(ids, s) && CurrentTied(ids, s) && EpochsTied(ids, s)
  }

  lemma TouchesTied(ids: seq<string>, s: Life, s': Life, i: nat)
    requires Tied(ids, s) && Touches(s, s', i)
    ensures Tied(ids, s')
  {
    assert forall j :: j in s'.turns <==> j in s'.turns.Keys;
    forall e ensures EpochTied(ids, s', e) {
      assert EpochTied(ids, s, e);
    }
  }

  lemma ShedsTied(ids: seq<string>, s: Life, s': Life)
    requires Tied(ids, s) && Sheds(s, s')
    ensures Tied(ids, s')
  {
    assert forall j :: j in s'.turns ==> j in s.turns.Keys;
    forall e ensures EpochTied(ids, s', e) {
      assert EpochTied(ids, s, e);
    }
  }

  lemma NewTurnTied(ids: seq<string>, s: Life, id: string)
    requires Tied(ids, s) && s.nextIndex + 1 !in s.turns
    ensures Tied(ids + [id], NewTurn(s, id))
  {
    LastOfGrows(ids, id);
    var s' := NewTurn(s, id);
    forall e ensures EpochTied(ids + [id], s', e) {
      assert EpochTied(ids, s, e);
    }
  }

  /** The turn that owns an unbound epoch. */
  lemma OwnedTied(ids: seq<string>, s: Life, owner: string)
    requires Tied(ids, s)
    ensures Owned(s, owner) == if owner != "" && LastOf(ids, owner) in s.turns then Some(LastOf(ids, owner)) else None
  {
  }

  lemma BindTied(ids: seq<string>, s: Life, e: Epoch, streamID: string, i: nat)
    requires Formed(s) && Bounded(s) && |s.epochTurns| < MAX_ROUTES && e !in s.epochTurns
    requires Tied(ids, s) && e.owner != "" && i == LastOf(ids, e.owner) && i in s.turns
    ensures Tied(ids, BindRoute(BindEpoch(s, e, i), streamID, i))
  {
    LastOfIsLast(ids, e.owner);
    BindEpochForms(s, e, i);
    BindRouteForms(BindEpoch(s, e, i), streamID, i);
    var s' := BindRoute(BindEpoch(s, e, i), streamID, i);
    forall x ensures EpochTied(ids, s', x) {
      assert EpochTied(ids, s, x);
    }
  }

  // ----------------------------------------------------------------------------------- steps

  /** A new BOS ends the current turn or marks it. */
  lemma ReplaceChanges(s: Life)
    requires Formed(s)
    ensures var s' := ReplaceCurrent(s);
      && (s.current !in s.turns ==> s' == s)
      && (s.current in s.turns && AwaitsDelivery(s.turns[s.current]) ==> Touches(s, s', s.current))
      && (s.current in s.turns && !AwaitsDelivery(s.turns[s.current]) ==> Sheds(s, s') && s.current !in s'.turns)
  {
    var i := s.current;
    if i in s.turns {
      var s1 := Once(s, i, Interrupted, InterruptedByInput);
      OnceTouches(s, i, Interrupted, InterruptedByInput);
      if AwaitsDelivery(s1.turns[i]) {
        PutTouches(s1, i, s1.turns[i].(pending := true));
        TouchesOn(s, s1, ReplaceCurrent(s), i);
      } else {
        SameForm(s, s1);
        EndSheds(s1, i, InterruptedByInput, Replaced);
        EndForms(s1, i, InterruptedByInput, Replaced);
        TouchedSheds(s, s1, ReplaceCurrent(s), i);
      }
    }
  }

  lemma StartTurnTied(ids: seq<string>, s: Life, id: string)
    requires Formed(s) && Tied(ids, s)
    ensures Tied(ids + [id], StartTurn(s, id))
  {
    var s1 := ReplaceCurrent(s);
    ReplaceForms(s);
    ReplaceChanges(s);
    if s.current in s.turns {
      if AwaitsDelivery(s.turns[s.current]) {
        TouchesTied(ids, s, s1, s.current);
      } else {
        ShedsTied(ids, s, s1);
      }
    }
    FreshIndex(s1);
    NewTurnTied(ids, s1, id);
    NewTurnForms(s1, id);
    EvictTurnsSheds(NewTurn(s1, id));
    ShedsTied(ids + [id], NewTurn(s1, id), StartTurn(s, id));
  }

  lemma HearTouches(s: Life, i: nat, terminal: bool, o: Note)
    requires i in s.turns
    ensures Touches(s, Hear(s, i, terminal, o), i)
  {
    var s1 := Once(s, i, InputFirst, Success);
    OnceTouches(s, i, InputFirst, Success);
    if terminal {
      OnceTouches(s1, i, InputTerminal, o);
      TouchesOn(s, s1, Once(s1, i, InputTerminal, o), i);
    }
  }

  lemma InputTied(ids: seq<string>, s: Life, id: string, begins: bool, terminal: bool, o: Note)
    requires Formed(s) && Bounded(s) && Tied(ids, s)
    ensures var e := Input(id, begins, terminal, o); Tied(Begin(ids, e), Step(s, e))
  {
    var ids', s1 := if begins then ids + [id] else ids, if begins then StartTurn(s, id) else s;
    if begins {
      StartTurnTied(ids, s, id);
    }
    HeardTied(ids', s1, id, terminal, o);
  }

  lemma HeardTied(ids: seq<string>, s: Life, id: string, terminal: bool, o: Note)
    requires Tied(ids, s)
    ensures Tied(ids, Heard(s, id, terminal, o))
  {
    var i := InputTurn(s, id);
    if i.Some? {
      HearTouches(s, i.value, terminal, o);
      TouchesTied(ids, s, Heard(s, id, terminal, o), i.value);
    }
  }

  lemma MarksTied(ids: seq<string>, s: Life, id: string)
    requires Formed(s) && Bounded(s) && Tied(ids, s)
    ensures Tied(ids, Step(s, InputPush(id))) && Tied(ids, Step(s, TransformStart(id))) && Tied(ids, Step(s, Interrupt))
  {
    var i := InputTurn(s, id);
    if i.Some? {
      var t := s.turns[i.value];
      MarkTouches(s, i.value, t.(inputPushed := true), InputPushed, Success);
      TouchesTied(ids, s, ObserveInputPush(s, id), i.value);
      MarkTouches(s, i.value, t.(transformStarted := true), TransformStarted, Success);
      TouchesTied(ids, s, ObserveTransformStarted(s, id), i.value);
    }
    if s.current in s.turns {
      OnceTouches(s, s.current, Interrupted, ControlInterrupt);
      TouchesTied(ids, s, ObserveInterrupt(s), s.current);
    }
  }

  lemma OutputTurnTied(ids: seq<string>, s: Life, c: Output)
    requires Formed(s) && Bounded(s) && Tied(ids, s)
    ensures Tied(ids, OutputTurn(s, c).life)
  {
    if c.epoch.Some? && c.epoch.value !in s.epochTurns {
      var e := c.epoch.value;
      var s1 := EvictEpochs(s, e.owner);
      EvictEpochsForms(s, e.owner);
      EvictEpochsSheds(s, e.owner);
      ShedsTied(ids, s, s1);
      OwnedTied(ids, s1, e.owner);
      if Owned(s1, e.owner).Some? {
        BindTied(ids, s1, e, c.streamID, LastOf(ids, e.owner));
      }
    }
  }

  lemma HandTouches(s: Life, i: nat, modal: bool)
    requires i in s.turns
    ensures Touches(s, Hand(s, i, modal), i)
  {
    var s1 := Once(s, i, OutputFirst, Success);
    OnceTouches(s, i, OutputFirst, Success);
    if modal {
      OnceTouches(s1, i, Delivered, Success);
      TouchesOn(s, s1, Once(s1, i, Delivered, Success), i);
    }
  }

  lemma MakeTouches(s: Life, i: nat, c: Output)
    requires i in s.turns
    ensures Touches(s, Make(s, i, c), i)
  {
    var s1 := if c.observable then Once(s, i, Produced, Success) else s;
    OnceTouches(s, i, Produced, Success);
    if c.assistant {
      BindTouches(s1, i, c);
      TouchesOn(s, s1, Make(s, i, c), i);
    }
  }

  lemma BindTouches(s: Life, i: nat, c: Output)
    requires i in s.turns
    ensures var s1 := Put(s, i, s.turns[i].(epochBound := true));
      Touches(s, if c.epochEnd then EnsureAgentTerminal(s1, i, c.outcome) else s1, i)
  {
    var s1 := Put(s, i, s.turns[i].(epochBound := true));
    PutTouches(s, i, s.turns[i].(epochBound := true));
    if c.epochEnd {
      EnsureTouches(s1, i, c.outcome);
      TouchesOn(s, s1, EnsureAgentTerminal(s1, i, c.outcome), i);
    }
  }

  lemma DeliveredTied(ids: seq<string>, s: Life, c: Output, modal: bool)
    requires Formed(s) && Bounded(s) && Tied(ids, s)
    ensures Tied(ids, Step(s, Deliver(c, modal)))
  {
    OutputTurnForms(s, c);
    OutputTurnTied(ids, s, c);
    var f := OutputTurn(s, c);
    if f.turn.Some? {
      HandTouches(f.life, f.turn.value, c.observable && modal);
      TouchesTied(ids, f.life, ObserveDelivered(s, c, modal), f.turn.value);
    }
  }

  lemma ProducedTied(ids: seq<string>, s: Life, c: Output)
    requires Formed(s) && Bounded(s) && Tied(ids, s)
    ensures Tied(ids, Step(s, Produce(c)))
  {
    OutputTurnForms(s, c);
    OutputTurnTied(ids, s, c);
    var f := OutputTurn(s, c);
    if f.turn.Some? {
      MakeTouches(f.life, f.turn.value, c);
      TouchesTied(ids, f.life, ObserveProduced(s, c), f.turn.value);
    }
  }

  lemma DrainedTied(ids: seq<string>, s: Life, c: Output)
    requires Formed(s) && Bounded(s) && Tied(ids, s)
    ensures Tied(ids, Step(s, Drain(c)))
  {
    DrainIsStep(s, c);
    OutputTurnForms(s, c);
    OutputTurnTied(ids, s, c);
    var f := OutputTurn(s, c);
    if c.epochEnd && f.turn.Some? {
      EndOutputSheds(f.life, c, f.turn.value);
      UnroutedTied(ids, f.life, c);
      ShedsTied(ids, Unrouted(f.life, c), EndOutput(f.life, c, f.turn.value));
    }
  }

  lemma UnroutedTied(ids: seq<string>, s: Life, c: Output)
    requires Tied(ids, s)
    ensures Tied(ids, Unrouted(s, c))
  {
    forall e ensures EpochTied(ids, Unrouted(s, c), e) {
      assert EpochTied(ids, s, e);
    }
  }

  lemma FinishSheds(s: Life, k: Component, o: Note)
    requires Formed(s) && Bounded(s)
    ensures Sheds(s.(finished := s.finished + {k}), Finish(s, k, o))
  {
    var s1 := s.(finished := s.finished + {k});
    SameForm(s, s1);
    ShedsNone(s1);
    if k in s.finished {
      assert s1 == s;
    } else {
      EndAllSheds(s1, k.AgentOutput?, o);
    }
  }

  lemma FinishedTied(ids: seq<string>, s: Life, k: Component)
    requires Tied(ids, s)
    ensures Tied(ids, s.(finished := s.finished + {k}))
  {
    var s1 := s.(finished := s.finished + {k});
    forall e ensures EpochTied(ids, s1, e) {
      assert EpochTied(ids, s, e);
    }
  }

  lemma FinishTied(ids: seq<string>, s: Life, k: Component, o: Note)
    requires Formed(s) && Bounded(s) && Tied(ids, s)
    ensures Tied(ids, Step(s, Finishes(k, o)))
  {
    FinishIsStep(s, k, o);
    FinishSheds(s, k, o);
    FinishedTied(ids, s, k);
    ShedsTied(ids, s.(finished := s.finished + {k}), Finish(s, k, o));
  }

  lemma StepTied(ids: seq<string>, s: Life, e: Event)
    requires Formed(s) && Bounded(s) && Tied(ids, s)
    ensures Tied(Begin(ids, e), Step(s, e))
  {
    match e
    case Input(id, begins, terminal, o) => InputTied(ids, s, id, begins, terminal, o);
    case InputPush(id) => MarksTied(ids, s, id);
    case TransformStart(id) => MarksTied(ids, s, id);
    case Interrupt => MarksTied(ids, s, "");
    case Deliver(c, modal) => DeliveredTied(ids, s, c, modal);
    case Produce(c) => ProducedTied(ids, s, c);
    case Drain(c) => DrainedTied(ids, s, c);
    case Finishes(k, o) => FinishTied(ids, s, k, o);
  }

  lemma {:induction false} RunTied(es: seq<Event>)
    ensures Tied(Begun(es), Run(es))
  {
    if es != [] {
      RunTied(es[..|es| - 1]);
      StepTied(Begun(es[..|es| - 1]), Run(es[..|es| - 1]), es[|es| - 1]);
    }
  }
}
