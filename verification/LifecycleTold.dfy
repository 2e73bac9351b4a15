/** Every live turn is what the events addressed to it say: which records it has, with which
    outcome, and which flags (pkgs/gizclaw/peer_stream_lifecycle.go). */
module LifecycleTold {
  import opened Options
  import opened Collections
  import opened Lifecycles
  import opened LifecycleRuns
  import opened LifecycleSheds
  import opened LifecycleOwners
  import LifecycleEpochs

  /** The turn that an input event of stream `id` is about: the last one of that stream while it
      lives, else the last one of all. */
  function Addressee(ids: seq<string>, s: Life, id: string): (i: nat) {
    if id != "" && LastOf(ids, id) in s.turns then LastOf(ids, id) else |ids|
  }

  /** The turn that the epoch of chunk `c` is bound to. */
  function ChunkTurn(s: Life, c: Output): (i: Option<nat>) {
    if c.epoch.Some? && c.epoch.value in s.epochTurns then Some(s.epochTurns[c.epoch.value]) else None
  }

  /** What a BOS says of its own turn and of the one before. */
  function BeginSays(ids: seq<string>, i: nat, x: Stage): (o: Option<Note>) {
    if x == TurnStarted && i == |ids| + 1 then Some(Accepted)
    else if x == Interrupted && i == |ids| then Some(InterruptedByInput)
    else None
  }

  /** What an input event says of the turn that it is about. */
  function InputSays(terminal: bool, outcome: Note, x: Stage): (o: Option<Note>) {
    if x == InputFirst then Some(Success) else if terminal && x == InputTerminal then Some(outcome) else None
  }

  /** What a delivered event says of the turn of its chunk. */
  function DeliverSays(modal: bool, x: Stage): (o: Option<Note>) {
    if x == OutputFirst || (x == Delivered && modal) then Some(Success) else None
  }

  /** What a produced chunk says of its turn. */
  function ProduceSays(c: Output, x: Stage): (o: Option<Note>) {
    if x == Produced && c.observable then Some(Success)
    else if x == AgentTerminal && c.assistant && c.epochEnd then Some(c.outcome)
    else None
  }

  function Or(o: Option<Note>, p: Option<Note>): (r: Option<Note>) { if o.Some? then o else p }

  /** What event `e` says of stage `x` of turn `i`, which is live in the state `s'` after it;
      `ids` are the BOS before it. */
  function Says(ids: seq<string>, e: Event, s': Life, i: nat, x: Stage): (o: Option<Note>) {
    if i !in s'.turns then None
    else
      match e
      case Input(id, begins, terminal, o) =>
        Or(if begins then BeginSays(ids, i, x) else None,
           if i == Addressee(Begin(ids, e), s', id) then InputSays(terminal, o, x) else None)
      case InputPush(id) => if x == InputPushed && i == Addressee(ids, s', id) then Some(Success) else None
      case TransformStart(id) => if x == TransformStarted && i == Addressee(ids, s', id) then Some(Success) else None
      case Interrupt => if x == Interrupted && i == |ids| then Some(ControlInterrupt) else None
      case Deliver(c, modal) => if ChunkTurn(s', c) == Some(i) then DeliverSays(c.observable && modal, x) else None
      case Produce(c) => if ChunkTurn(s', c) == Some(i) then ProduceSays(c, x) else None
      case Drain(_) => None
      case Finishes(_, _) => None
  }

  /** A stage shows in what the turn has seen and in the log. */
  datatype Aspect = Seen | Logged(outcome: Note)

  /** In that aspect turn `i` shows stage `x` as `says` says. */
  ghost predicate Shows(s: Life, i: nat, x: Stage, says: Option<Note>, a: Aspect) {
    && i in s.turns
    && match a
       case Seen => x in s.turns[i].seen <==> says.Some?
       case Logged(o) => Record(i, x, o) in s.log <==> says == Some(o)
  }

  /** In that aspect the change adds what `says` says to what was seen before. */
  ghost predicate Gains(s: Life, s': Life, i: nat, x: Stage, says: Option<Note>, a: Aspect) {
    && i in s.turns && i in s'.turns
    && match a
       case Seen => x in s'.turns[i].seen <==> x in s.turns[i].seen || says.Some?
       case Logged(o) =>
         Record(i, x, o) in s'.log <==> Record(i, x, o) in s.log || (x !in s.turns[i].seen && says == Some(o))
  }

  /** The change adds to stage `x` of turn `i` what `says` says, unless it was seen before. */
  ghost predicate Adds(s: Life, s': Life, i: nat, x: Stage, says: Option<Note>) {
    i in s.turns && i in s'.turns && forall a :: Gains(s, s', i, x, says, a)
  }

  lemma AddsOn(s: Life, m: Life, s': Life, i: nat, x: Stage, p: Option<Note>, q: Option<Note>)
    requires Adds(s, m, i, x, p) && Adds(m, s', i, x, q)
    ensures Adds(s, s', i, x, Or(p, q))
  {
    forall a ensures Gains(s, s', i, x, Or(p, q), a) {
      assert Gains(s, m, i, x, p, a) && Gains(m, s', i, x, q, a) && Gains(s, m, i, x, p, Seen);
    }
  }

  /** Nothing is added to a turn that is left as it is. */
  lemma AddsNothing(s: Life, s': Life, i: nat, x: Stage)
    requires i in s.turns && i in s'.turns && s'.turns[i].seen == s.turns[i].seen && Silent(s, s', i)
    ensures Adds(s, s', i, x, None)
  {
    forall a ensures Gains(s, s', i, x, None, a) {
    }
  }

  lemma OnceAdds(s: Life, j: nat, y: Stage, o: Note, i: nat, x: Stage)
    requires j in s.turns && i in s.turns
    ensures Adds(s, Once(s, j, y, o), i, x, if i == j && x == y then Some(o) else None)
  {
    if y in s.turns[j].seen {
      SeenAdds(s, i, x, if i == j && x == y then Some(o) else None);
    } else {
      var t := s.turns[j].(seen := s.turns[j].seen + {y});
      SayAdds(s, Once(s, j, y, o), j, y, o, t, i, x);
    }
  }

  /** What was seen before is not added again. */
  lemma SeenAdds(s: Life, i: nat, x: Stage, says: Option<Note>)
    requires i in s.turns && (says.Some? ==> x in s.turns[i].seen)
    ensures Adds(s, s, i, x, says)
  {
    forall a ensures Gains(s, s, i, x, says, a) {
    }
  }

  lemma SayAdds(s: Life, s': Life, j: nat, y: Stage, o: Note, t: Turn, i: nat, x: Stage)
    requires j in s.turns && i in s.turns && y !in s.turns[j].seen && t.seen == s.turns[j].seen + {y}
    requires s'.turns == s.turns[j := t] && s'.log == s.log + [Record(j, y, o)]
    ensures Adds(s, s', i, x, if i == j && x == y then Some(o) else None)
  {
    var says: Option<Note> := if i == j && x == y then Some(o) else None;
    forall a ensures Gains(s, s', i, x, says, a) {
    }
  }

  lemma PutAdds(s: Life, j: nat, t: Turn, i: nat, x: Stage)
    requires j in s.turns && i in s.turns && t.seen == s.turns[j].seen
    ensures Adds(s, Put(s, j, t), i, x, None)
  {
    forall a ensures Gains(s, Put(s, j, t), i, x, None, a) {
    }
  }

  /** Set flags, then record once. */
  lemma MarkAdds(s: Life, j: nat, t: Turn, y: Stage, o: Note, i: nat, x: Stage)
    requires j in s.turns && i in s.turns && t.seen == s.turns[j].seen
    ensures Adds(s, Once(Put(s, j, t), j, y, o), i, x, if i == j && x == y then Some(o) else None)
  {
    PutAdds(s, j, t, i, x);
    OnceAdds(Put(s, j, t), j, y, o, i, x);
    AddsOn(s, Put(s, j, t), Once(Put(s, j, t), j, y, o), i, x, None, if i == j && x == y then Some(o) else None);
  }

  // ------------------------------------------------------------------------------------ input

  lemma ReplaceAdds(ids: seq<string>, s: Life, i: nat, x: Stage)
    requires Formed(s) && Tied(ids, s) && i in ReplaceCurrent(s).turns
    ensures Adds(s, ReplaceCurrent(s), i, x, if x == Interrupted && i == |ids| then Some(InterruptedByInput) else None)
  {
    ReplaceChanges(s);
    var s', j := ReplaceCurrent(s), s.current;
    if j !in s.turns {
      AddsNothing(s, s', i, x);
    } else if AwaitsDelivery(s.turns[j]) {
      var s1 := Once(s, j, Interrupted, InterruptedByInput);
      assert i in s'.turns.Keys;
      OnceAdds(s, j, Interrupted, InterruptedByInput, i, x);
      PutAdds(s1, j, s1.turns[j].(pending := true), i, x);
      AddsOn(s, s1, s', i, x, if x == Interrupted && i == |ids| then Some(InterruptedByInput) else None, None);
    } else {
      AddsNothing(s, s', i, x);
    }
  }

  /** Nothing has been said of a turn that has not begun. */
  lemma Unborn(s: Life, i: nat, x: Stage, o: Note)
    requires Sound(s) && i > s.nextIndex
    ensures i !in s.turns && Record(i, x, o) !in s.log
  {
    assert Obeys(s, TurnLaw);
    assert TurnTold(s, i);
    StoryRecords(s.log, i, x);
  }

  /** Turn `i` shows stage `x` exactly as `says` says. */
  ghost predicate Has(s: Life, i: nat, x: Stage, says: Option<Note>) { forall a :: Shows(s, i, x, says, a) }

  /** The change adds what `says` says of turn `i`, which may begin with it. */
  ghost predicate Hears(s: Life, s': Life, i: nat, x: Stage, says: Option<Note>) {
    if i in s.turns then Adds(s, s', i, x, says) else Has(s', i, x, says)
  }

  lemma HasOn(s: Life, s': Life, i: nat, x: Stage, p: Option<Note>, q: Option<Note>)
    requires Has(s, i, x, p) && Adds(s, s', i, x, q)
    ensures Has(s', i, x, Or(p, q))
  {
    forall a ensures Shows(s', i, x, Or(p, q), a) {
      assert Shows(s, i, x, p, a) && Shows(s, i, x, p, Seen) && Gains(s, s', i, x, q, a);
    }
  }

  lemma HearsOn(s: Life, m: Life, s': Life, i: nat, x: Stage, p: Option<Note>, q: Option<Note>)
    requires Hears(s, m, i, x, p) && Adds(m, s', i, x, q)
    ensures Hears(s, s', i, x, Or(p, q))
  {
    if i in s.turns {
      AddsOn(s, m, s', i, x, p, q);
    } else {
      HasOn(m, s', i, x, p, q);
    }
  }

  /** The turn that begins has one record. */
  lemma NewTurnHas(s: Life, id: string, x: Stage)
    requires Sound(s)
    ensures Has(NewTurn(s, id), s.nextIndex + 1, x, if x == TurnStarted then Some(Accepted) else None)
  {
    var i, s' := s.nextIndex + 1, NewTurn(s, id);
    var says: Option<Note> := if x == TurnStarted then Some(Accepted) else None;
    forall a ensures Shows(s', i, x, says, a) {
      if a.Logged? {
        Unborn(s, i, x, a.outcome);
      }
    }
  }

  lemma NewTurnAdds(s: Life, id: string, i: nat, x: Stage)
    requires i in s.turns && i != s.nextIndex + 1
    ensures Adds(s, NewTurn(s, id), i, x, None)
  {
    AddsNothing(s, NewTurn(s, id), i, x);
  }

  lemma EvictTurnsAdds(s: Life, i: nat, x: Stage)
    requires Formed(s) && i in EvictTurns(s).turns
    ensures i in s.turns && Adds(s, EvictTurns(s), i, x, None)
  {
    EvictTurnsSheds(s);
    assert i in s.turns.Keys;
    AddsNothing(s, EvictTurns(s), i, x);
  }

  lemma StartHears(ids: seq<string>, s: Life, id: string, i: nat, x: Stage)
    requires Sound(s) && Tied(ids, s) && i in StartTurn(s, id).turns
    ensures Hears(s, StartTurn(s, id), i, x, BeginSays(ids, i, x))
  {
    var s2 := NewTurn(ReplaceCurrent(s), id);
    ReplaceForms(s);
    NewTurnForms(ReplaceCurrent(s), id);
    EvictTurnsAdds(s2, i, x);
    BegunHears(ids, s, id, i, x);
    HearsOn(s, s2, StartTurn(s, id), i, x, BeginSays(ids, i, x), None);
  }

  lemma BegunHears(ids: seq<string>, s: Life, id: string, i: nat, x: Stage)
    requires Sound(s) && Tied(ids, s) && i in NewTurn(ReplaceCurrent(s), id).turns
    ensures Hears(s, NewTurn(ReplaceCurrent(s), id), i, x, BeginSays(ids, i, x))
  {
    ReplaceForms(s);
    if i == |ids| + 1 {
      FreshIndex(s);
      ReplaceTells(s);
      NewTurnHas(ReplaceCurrent(s), id, x);
    } else {
      OldAdds(ids, s, id, i, x);
    }
  }

  lemma OldAdds(ids: seq<string>, s: Life, id: string, i: nat, x: Stage)
    requires Formed(s) && Tied(ids, s) && i != |ids| + 1 && i in NewTurn(ReplaceCurrent(s), id).turns
    ensures Adds(s, NewTurn(ReplaceCurrent(s), id), i, x, BeginSays(ids, i, x))
  {
    var s1 := ReplaceCurrent(s);
    ReplaceForms(s);
    OldTurn(s1, id, i);
    ReplaceKeys(s, i);
    ReplaceAdds(ids, s, i, x);
    NewTurnAdds(s1, id, i, x);
    AddsOn(s, s1, NewTurn(s1, id), i, x, BeginSays(ids, i, x), None);
  }

  lemma OldTurn(s: Life, id: string, i: nat)
    requires i in NewTurn(s, id).turns && i != s.nextIndex + 1
    ensures i in s.turns
  {
  }

  lemma ReplaceKeys(s: Life, i: nat)
    requires i in ReplaceCurrent(s).turns
    ensures i in s.turns
  {
    if s.current in s.turns {
      assert i in ReplaceCurrent(s).turns.Keys;
    }
  }

  lemma HeardAdds(ids: seq<string>, s: Life, id: string, terminal: bool, o: Note, i: nat, x: Stage)
    requires Tied(ids, s) && i in s.turns
    ensures Adds(s, Heard(s, id, terminal, o), i, x, if i == Addressee(ids, s, id) then InputSays(terminal, o, x) else None)
  {
    var j := InputTurn(s, id);
    if j.None? {
      AddsNothing(s, s, i, x);
    } else {
      HearAdds(s, j.value, terminal, o, i, x);
    }
  }

  lemma HearAdds(s: Life, j: nat, terminal: bool, o: Note, i: nat, x: Stage)
    requires j in s.turns && i in s.turns
    ensures Adds(s, Hear(s, j, terminal, o), i, x, if i == j then InputSays(terminal, o, x) else None)
  {
    var s1 := Once(s, j, InputFirst, Success);
    OnceAdds(s, j, InputFirst, Success, i, x);
    if terminal {
      OnceAdds(s1, j, InputTerminal, o, i, x);
      AddsOn(s, s1, Once(s1, j, InputTerminal, o), i, x,
             if i == j && x == InputFirst then Some(Success) else None, if i == j && x == InputTerminal then Some(o) else None);
    }
  }

  lemma InputHears(ids: seq<string>, s: Life, id: string, begins: bool, terminal: bool, o: Note, i: nat, x: Stage)
    requires Sound(s) && Bounded(s) && Tied(ids, s)
    ensures var e := Input(id, begins, terminal, o);
      i in Step(s, e).turns ==> Hears(s, Step(s, e), i, x, Says(ids, e, Step(s, e), i, x))
  {
    if begins {
      BosHears(ids, s, id, terminal, o, i, x);
    } else {
      ContinueHears(ids, s, id, terminal, o, i, x);
    }
  }

  lemma ContinueHears(ids: seq<string>, s: Life, id: string, terminal: bool, o: Note, i: nat, x: Stage)
    requires Formed(s) && Bounded(s) && Tied(ids, s)
    ensures var e := Input(id, false, terminal, o);
      i in Step(s, e).turns ==> Adds(s, Step(s, e), i, x, Says(ids, e, Step(s, e), i, x))
  {
    var s' := Heard(s, id, terminal, o);
    if i in s'.turns {
      assert i in s'.turns.Keys;
      AddresseeSame(ids, s, s', id);
      HeardAdds(ids, s, id, terminal, o, i, x);
    }
  }

  lemma BosHears(ids: seq<string>, s: Life, id: string, terminal: bool, o: Note, i: nat, x: Stage)
    requires Sound(s) && Bounded(s) && Tied(ids, s)
    ensures var e := Input(id, true, terminal, o);
      i in Step(s, e).turns ==> Hears(s, Step(s, e), i, x, Says(ids, e, Step(s, e), i, x))
  {
    var s1 := StartTurn(s, id);
    var s' := Heard(s1, id, terminal, o);
    if i in s'.turns {
      assert i in s'.turns.Keys;
      StartTurnTied(ids, s, id);
      StartHears(ids, s, id, i, x);
      HeardAdds(ids + [id], s1, id, terminal, o, i, x);
      AddresseeSame(ids + [id], s1, s', id);
      HearsOn(s, s1, s', i, x, BeginSays(ids, i, x),
              if i == Addressee(ids + [id], s1, id) then InputSays(terminal, o, x) else None);
    }
  }

  lemma AddresseeSame(ids: seq<string>, s: Life, s': Life, id: string)
    requires s'.turns.Keys == s.turns.Keys
    ensures Addressee(ids, s', id) == Addressee(ids, s, id)
  {
    assert LastOf(ids, id) in s'.turns <==> LastOf(ids, id) in s'.turns.Keys;
  }

  lemma PushHears(ids: seq<string>, s: Life, id: string, i: nat, x: Stage)
    requires Formed(s) && Bounded(s) && Tied(ids, s)
    ensures var e := InputPush(id); i in Step(s, e).turns ==> Adds(s, Step(s, e), i, x, Says(ids, e, Step(s, e), i, x))
  {
    var j, s' := InputTurn(s, id), ObserveInputPush(s, id);
    if i in s'.turns {
      assert i in s'.turns.Keys;
      AddresseeSame(ids, s, s', id);
      if j.None? {
        AddsNothing(s, s, i, x);
      } else {
        MarkAdds(s, j.value, s.turns[j.value].(inputPushed := true), InputPushed, Success, i, x);
      }
    }
  }

  lemma TransformHears(ids: seq<string>, s: Life, id: string, i: nat, x: Stage)
    requires Formed(s) && Bounded(s) && Tied(ids, s)
    ensures var e := TransformStart(id); i in Step(s, e).turns ==> Adds(s, Step(s, e), i, x, Says(ids, e, Step(s, e), i, x))
  {
    var j, s' := InputTurn(s, id), ObserveTransformStarted(s, id);
    if i in s'.turns {
      assert i in s'.turns.Keys;
      AddresseeSame(ids, s, s', id);
      if j.None? {
        AddsNothing(s, s, i, x);
      } else {
        MarkAdds(s, j.value, s.turns[j.value].(transformStarted := true), TransformStarted, Success, i, x);
      }
    }
  }

  lemma InterruptHears(ids: seq<string>, s: Life, i: nat, x: Stage)
    requires Formed(s) && Bounded(s) && Tied(ids, s)
    ensures var e := Interrupt; i in Step(s, e).turns ==> Adds(s, Step(s, e), i, x, Says(ids, e, Step(s, e), i, x))
  {
    var s' := ObserveInterrupt(s);
    if i in s'.turns {
      assert i in s'.turns.Keys;
      if s.current in s.turns {
        OnceAdds(s, s.current, Interrupted, ControlInterrupt, i, x);
      } else {
        AddsNothing(s, s, i, x);
      }
    }
  }

  // ----------------------------------------------------------------------------------- output

  lemma BindKeeps(s: Life, e: Epoch, streamID: string, i: nat)
    requires Formed(s) && Bounded(s) && i in s.turns && e !in s.epochTurns
    ensures var s' := BindRoute(BindEpoch(s, e, i), streamID, i);
      && s'.turns == s.turns && s'.log == s.log && s'.finished == s.finished
      && e in s'.epochTurns && s'.epochTurns[e] == i
  {
    BindEpochForms(s, e, i);
    BindRouteForms(BindEpoch(s, e, i), streamID, i);
  }

  /** Finding the turn of a chunk leaves the turns that live on as they are. */
  lemma FindKeeps(s: Life, c: Output, i: nat)
    requires Formed(s) && Bounded(s) && i in OutputTurn(s, c).life.turns
    ensures var f := OutputTurn(s, c);
      && i in s.turns && Silent(s, f.life, i) && f.life.turns[i] == s.turns[i] && f.life.finished == s.finished
      && ChunkTurn(f.life, c) == f.turn
  {
    if c.epoch.Some? && c.epoch.value !in s.epochTurns {
      var e := c.epoch.value;
      var s1 := EvictEpochs(s, e.owner);
      EvictEpochsForms(s, e.owner);
      EvictEpochsSheds(s, e.owner);
      if Owned(s1, e.owner).Some? {
        BindKeeps(s1, e, c.streamID, Owned(s1, e.owner).value);
      }
      assert i in s1.turns.Keys && e !in s1.epochTurns;
    }
  }

  lemma HandAdds(s: Life, j: nat, modal: bool, i: nat, x: Stage)
    requires j in s.turns && i in s.turns
    ensures Adds(s, Hand(s, j, modal), i, x, if i == j then DeliverSays(modal, x) else None)
  {
    var s1 := Once(s, j, OutputFirst, Success);
    OnceAdds(s, j, OutputFirst, Success, i, x);
    if modal {
      OnceAdds(s1, j, Delivered, Success, i, x);
      AddsOn(s, s1, Once(s1, j, Delivered, Success), i, x,
             if i == j && x == OutputFirst then Some(Success) else None, if i == j && x == Delivered then Some(Success) else None);
    }
  }

  lemma DeliveredAdds(s: Life, c: Output, modal: bool, i: nat, x: Stage)
    requires Formed(s) && Bounded(s) && i in ObserveDelivered(s, c, modal).turns
    ensures var s' := ObserveDelivered(s, c, modal);
      Adds(s, s', i, x, if ChunkTurn(s', c) == Some(i) then DeliverSays(c.observable && modal, x) else None)
  {
    var f, s' := OutputTurn(s, c), ObserveDelivered(s, c, modal);
    OutputTurnForms(s, c);
    assert i in s'.turns.Keys;
    FindKeeps(s, c, i);
    AddsNothing(s, f.life, i, x);
    if f.turn.Some? {
      HandAdds(f.life, f.turn.value, c.observable && modal, i, x);
      AddsOn(s, f.life, s', i, x, None, if i == f.turn.value then DeliverSays(c.observable && modal, x) else None);
    }
  }

  lemma DeliverHears(ids: seq<string>, s: Life, c: Output, modal: bool, i: nat, x: Stage)
    requires Formed(s) && Bounded(s)
    ensures var e := Deliver(c, modal); i in Step(s, e).turns ==> Adds(s, Step(s, e), i, x, Says(ids, e, Step(s, e), i, x))
  {
    if i in ObserveDelivered(s, c, modal).turns {
      DeliveredAdds(s, c, modal, i, x);
    }
  }

  lemma EnsureAdds(s: Life, j: nat, o: Note, i: nat, x: Stage)
    requires j in s.turns && i in s.turns && (AgentTerminal in s.turns[j].seen <==> s.turns[j].agentTerminal)
    ensures Adds(s, EnsureAgentTerminal(s, j, o), i, x, if i == j && x == AgentTerminal then Some(o) else None)
  {
    if !s.turns[j].agentTerminal {
      MarkAdds(s, j, s.turns[j].(agentTerminal := true), AgentTerminal, o, i, x);
    }
  }

  lemma MakeAdds(s: Life, j: nat, c: Output, i: nat, x: Stage)
    requires j in s.turns && i in s.turns && (AgentTerminal in s.turns[j].seen <==> s.turns[j].agentTerminal)
    ensures Adds(s, Make(s, j, c), i, x, if i == j then ProduceSays(c, x) else None)
  {
    var p: Option<Note> := if i == j && x == Produced && c.observable then Some(Success) else None;
    var q: Option<Note> := if i == j && x == AgentTerminal && c.assistant && c.epochEnd then Some(c.outcome) else None;
    var s1 := if c.observable then Once(s, j, Produced, Success) else s;
    if c.observable {
      OnceAdds(s, j, Produced, Success, i, x);
    } else {
      AddsNothing(s, s, i, x);
    }
    if c.assistant {
      AssistAdds(s1, j, c, i, x);
      AddsOn(s, s1, Make(s, j, c), i, x, p, q);
    }
  }

  lemma AssistAdds(s: Life, j: nat, c: Output, i: nat, x: Stage)
    requires j in s.turns && i in s.turns && (AgentTerminal in s.turns[j].seen <==> s.turns[j].agentTerminal)
    ensures var s1 := Put(s, j, s.turns[j].(epochBound := true));
      Adds(s, if c.epochEnd then EnsureAgentTerminal(s1, j, c.outcome) else s1, i, x,
           if i == j && x == AgentTerminal && c.epochEnd then Some(c.outcome) else None)
  {
    var s1 := Put(s, j, s.turns[j].(epochBound := true));
    PutAdds(s, j, s.turns[j].(epochBound := true), i, x);
    if c.epochEnd {
      EnsureAdds(s1, j, c.outcome, i, x);
      AddsOn(s, s1, EnsureAgentTerminal(s1, j, c.outcome), i, x, None,
             if i == j && x == AgentTerminal then Some(c.outcome) else None);
    }
  }

  lemma AgentSeen(s: Life, i: nat)
    requires Sound(s) && i in s.turns
    ensures AgentTerminal in s.turns[i].seen <==> s.turns[i].agentTerminal
  {
    assert TurnTold(s, i);
  }

  lemma ProducedAdds(s: Life, c: Output, i: nat, x: Stage)
    requires Sound(s) && Bounded(s) && i in ObserveProduced(s, c).turns
    ensures var s' := ObserveProduced(s, c);
      Adds(s, s', i, x, if ChunkTurn(s', c) == Some(i) then ProduceSays(c, x) else None)
  {
    var f, s' := OutputTurn(s, c), ObserveProduced(s, c);
    OutputTurnForms(s, c);
    assert i in s'.turns.Keys;
    FindKeeps(s, c, i);
    AddsNothing(s, f.life, i, x);
    if f.turn.Some? {
      OutputTurnTells(s, c);
      AgentSeen(f.life, f.turn.value);
      MakeAdds(f.life, f.turn.value, c, i, x);
      AddsOn(s, f.life, s', i, x, None, if i == f.turn.value then ProduceSays(c, x) else None);
    }
  }

  lemma ProduceHears(ids: seq<string>, s: Life, c: Output, i: nat, x: Stage)
    requires Sound(s) && Bounded(s)
    ensures var e := Produce(c); i in Step(s, e).turns ==> Adds(s, Step(s, e), i, x, Says(ids, e, Step(s, e), i, x))
  {
    if i in ObserveProduced(s, c).turns {
      ProducedAdds(s, c, i, x);
    }
  }

  lemma DrainHears(s: Life, c: Output, i: nat, x: Stage)
    requires Formed(s) && Bounded(s)
    ensures i in Step(s, Drain(c)).turns ==> Adds(s, Step(s, Drain(c)), i, x, None)
  {
    DrainIsStep(s, c);
    var s', f := ObserveDrained(s, c), OutputTurn(s, c);
    if i in s'.turns {
      if c.epochEnd {
        OutputTurnForms(s, c);
        if s' != f.life {
          EndOutputSheds(f.life, c, f.turn.value);
          assert i in s'.turns.Keys && Silent(Unrouted(f.life, c), s', i);
        }
        FindKeeps(s, c, i);
      }
      AddsNothing(s, s', i, x);
    }
  }

  lemma FinishHears(s: Life, k: Component, o: Note, i: nat, x: Stage)
    requires Formed(s) && Bounded(s)
    ensures var e := Finishes(k, o); i in Step(s, e).turns ==> Adds(s, Step(s, e), i, x, None)
  {
    FinishIsStep(s, k, o);
    FinishSheds(s, k, o);
    var s' := Finish(s, k, o);
    if i in s'.turns {
      assert i in s'.turns.Keys && Silent(s.(finished := s.finished + {k}), s', i);
      AddsNothing(s, s', i, x);
    }
  }

  lemma StepHears(ids: seq<string>, s: Life, e: Event, i: nat, x: Stage)
    requires Sound(s) && Bounded(s) && Tied(ids, s)
    ensures i in Step(s, e).turns ==> Hears(s, Step(s, e), i, x, Says(ids, e, Step(s, e), i, x))
  {
    match e
    case Input(id, begins, terminal, o) => InputHears(ids, s, id, begins, terminal, o, i, x);
    case InputPush(id) => PushHears(ids, s, id, i, x);
    case TransformStart(id) => TransformHears(ids, s, id, i, x);
    case Interrupt => InterruptHears(ids, s, i, x);
    case Deliver(c, modal) => DeliverHears(ids, s, c, modal, i, x);
    case Produce(c) => ProduceHears(ids, s, c, i, x);
    case Drain(c) => DrainHears(s, c, i, x);
    case Finishes(k, o) => FinishHears(s, k, o, i, x);
  }

  // ------------------------------------------------------------------------------------- runs

  /** What the first event that says something of stage `x` of turn `i` says. */
  function FirstSaid(es: seq<Event>, i: nat, x: Stage): (o: Option<Note>) {
    if es == [] then None
    else
      var pre := es[..|es| - 1];
      Or(FirstSaid(pre, i, x), Says(Begun(pre), es[|es| - 1], Run(es), i, x))
  }

  lemma {:induction false} UnbornSaid(es: seq<Event>, i: nat, x: Stage)
    requires i > |Begun(es)|
    ensures FirstSaid(es, i, x).None?
  {
    RunTied(es);
    NotYet(Begun(es), Run(es), i);
    if es != [] {
      UnbornSaid(es[..|es| - 1], i, x);
    }
  }

  lemma NotYet(ids: seq<string>, s: Life, i: nat)
    requires Formed(s) && Tied(ids, s) && i > |ids|
    ensures i !in s.turns
  {
    assert Obeys(s, TurnLaw);
  }

  /** The story of every live turn, in every reachable state: it has a record of a stage exactly
      when an event addressed to it said so, and with the outcome that the first one gave. */
  lemma {:induction false} StoryIsTold(es: seq<Event>, i: nat, x: Stage)
    ensures i in Run(es).turns ==> Has(Run(es), i, x, FirstSaid(es, i, x))
  {
    if es != [] && i in Run(es).turns {
      var pre, e := es[..|es| - 1], es[|es| - 1];
      RunSound(pre);
      RunTied(pre);
      StepHears(Begun(pre), Run(pre), e, i, x);
      if i in Run(pre).turns {
        StoryIsTold(pre, i, x);
        HasOn(Run(pre), Run(es), i, x, FirstSaid(pre, i, x), Says(Begun(pre), e, Run(es), i, x));
      } else {
        BornNow(pre, e, i);
        UnbornSaid(pre, i, x);
      }
    }
  }

  lemma BornNow(pre: seq<Event>, e: Event, i: nat)
    requires i in Step(Run(pre), e).turns && i !in Run(pre).turns
    ensures i > |Begun(pre)| && i > Run(pre).nextIndex
  {
    RunTied(pre);
    LifecycleEpochs.StepFollows(Run(pre), e);
  }
}
