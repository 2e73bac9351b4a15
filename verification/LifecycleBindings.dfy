/** How response epochs and output routes are bound to turns: to the turn of the stream that owns
    the epoch, oldest first to go (pkgs/gizclaw/peer_stream_lifecycle.go). */
module LifecycleBindings {
  import opened Options
  import opened Collections
  import opened Lifecycles
  import opened LifecycleRuns
  import opened LifecycleSheds
  import opened LifecycleOwners

  // ------------------------------------------------------------------- epochs and routes go

  ghost predicate Within<K(!new)>(m: map<K, nat>, m': map<K, nat>) {
    forall k :: k in m' ==> k in m && m'[k] == m[k]
  }

  /** No epoch and no route is bound; what is left keeps its order. */
  ghost predicate Slims(s: Life, s': Life) {
    && Within(s.epochTurns, s'.epochTurns) && Within(s.outputTurns, s'.outputTurns)
    && s'.epochOrder == Keep(s.epochOrder, s'.epochTurns.Keys)
  }

  lemma SlimsOn(s: Life, m: Life, s': Life)
    requires Slims(s, m) && Slims(m, s')
    ensures Slims(s, s')
  {
    KeepTwice(s.epochOrder, m.epochTurns.Keys, s'.epochTurns.Keys);
  }

  lemma ShedsSlims(s: Life, s': Life)
    requires Sheds(s, s')
    ensures Slims(s, s')
  {
  }

  lemma SameSlims(s: Life, s': Life)
    requires Formed(s) && s'.epochTurns == s.epochTurns && s'.outputTurns == s.outputTurns && s'.epochOrder == s.epochOrder
    ensures Slims(s, s')
  {
    assert Obeys(s, EpochLaw);
    KeepAll(s.epochOrder, s.epochTurns.Keys);
  }

  lemma StartTurnSlims(s: Life, id: string)
    requires Formed(s)
    ensures Slims(s, StartTurn(s, id))
  {
    var s1 := ReplaceCurrent(s);
    var s2 := NewTurn(s1, id);
    ReplaceForms(s);
    ReplaceChanges(s);
    if s.current in s.turns && !AwaitsDelivery(s.turns[s.current]) {
      ShedsSlims(s, s1);
    } else {
      SameSlims(s, s1);
    }
    NewTurnForms(s1, id);
    SameSlims(s1, s2);
    SlimsOn(s, s1, s2);
    EvictTurnsSheds(s2);
    ShedsSlims(s2, EvictTurns(s2));
    SlimsOn(s, s2, EvictTurns(s2));
  }

  /** The event carries an output chunk. */
  predicate Carries(e: Event) { e.Deliver? || e.Produce? || e.Drain? }

  lemma OtherSlims(s: Life, e: Event)
    requires Formed(s) && Bounded(s) && !Carries(e)
    ensures Slims(s, Step(s, e))
  {
    match e
    case Input(id, begins, terminal, o) => InputSlims(s, id, begins, terminal, o);
    case InputPush(id) => SameSlims(s, ObserveInputPush(s, id));
    case TransformStart(id) => SameSlims(s, ObserveTransformStarted(s, id));
    case Interrupt => SameSlims(s, ObserveInterrupt(s));
    case Finishes(k, o) =>
      FinishIsStep(s, k, o);
      FinishSheds(s, k, o);
      ShedsSlims(s.(finished := s.finished + {k}), Finish(s, k, o));
  }

  lemma InputSlims(s: Life, id: string, begins: bool, terminal: bool, o: Note)
    requires Formed(s) && Bounded(s)
    ensures Slims(s, Step(s, Input(id, begins, terminal, o)))
  {
    var s1 := if begins then StartTurn(s, id) else s;
    if begins {
      StartTurnForms(s, id);
      StartTurnSlims(s, id);
    } else {
      SameSlims(s, s1);
    }
    SameSlims(s1, Heard(s1, id, terminal, o));
    SlimsOn(s, s1, Heard(s1, id, terminal, o));
  }

  // -------------------------------------------------------------------------------- binding

  lemma {:induction false} TrimKeeps(s: Life)
    ensures Within(s.outputTurns, TrimRoutes(s).outputTurns)
    ensures |s.outputTurns| <= MAX_ROUTES ==> TrimRoutes(s) == s
    decreases |s.outputOrder|
  {
    if |s.outputTurns| > MAX_ROUTES && s.outputOrder != [] {
      TrimKeeps(s.(outputOrder := s.outputOrder[1..], outputTurns := s.outputTurns - {s.outputOrder[0]}));
    }
  }

  /** Entry `n` of the list is the first route that is bound. */
  ghost predicate FirstRoute(s: Life, n: nat) {
    && n < |s.outputOrder| && s.outputOrder[n] in s.outputTurns
    && forall k :: 0 <= k < n ==> s.outputOrder[k] !in s.outputTurns
  }

  /** With one route too many, the bound one that is listed first goes, and no other. */
  lemma {:induction false} TrimsFirst(s: Life, n: nat)
    requires FirstRoute(s, n) && |s.outputTurns| == MAX_ROUTES + 1
    ensures TrimRoutes(s) == s.(outputTurns := s.outputTurns - {s.outputOrder[n]}, outputOrder := s.outputOrder[n + 1..])
    decreases n
  {
    var first := s.outputOrder[0];
    if n == 0 {
      TrimsOne(s);
    } else {
      var s1 := s.(outputOrder := s.outputOrder[1..]);
      assert s.outputTurns - {first} == s.outputTurns;
      TrimsFirst(s1, n - 1);
      assert s1.outputOrder[n..] == s.outputOrder[n + 1..];
    }
  }

  lemma TrimsOne(s: Life)
    requires s.outputOrder != [] && s.outputOrder[0] in s.outputTurns && |s.outputTurns| == MAX_ROUTES + 1
    ensures TrimRoutes(s) == s.(outputTurns := s.outputTurns - {s.outputOrder[0]}, outputOrder := s.outputOrder[1..])
  {
    var s1 := s.(outputTurns := s.outputTurns - {s.outputOrder[0]}, outputOrder := s.outputOrder[1..]);
    assert s1.outputTurns.Keys == s.outputTurns.Keys - {s.outputOrder[0]};
    assert |s1.outputTurns| == |s1.outputTurns.Keys|;
    TrimKeeps(s1);
  }

  /** The turn that the input stream of epoch `e` started last, if it lives. */
  predicate Owner(ids: seq<string>, s: Life, e: Epoch) { e.owner != "" && LastOf(ids, e.owner) in s.turns }

  /** The epoch and the route of `c` were bound to turn `i`. */
  ghost predicate Bound(s: Life, s': Life, c: Output, i: nat)
    requires c.epoch.Some?
  {
    && s'.epochTurns == s.epochTurns[c.epoch.value := i] && s'.epochOrder == s.epochOrder + [c.epoch.value]
    && Within(if c.streamID == "" then s.outputTurns else s.outputTurns[c.streamID := i], s'.outputTurns)
    && (c.streamID != "" && |s.outputTurns.Keys + {c.streamID}| <= MAX_ROUTES ==>
          s'.outputTurns == s.outputTurns[c.streamID := i])
    && (c.streamID == "" ==> s'.outputTurns == s.outputTurns)
    && s' == s.(epochTurns := s'.epochTurns, epochOrder := s'.epochOrder, outputTurns := s'.outputTurns, outputOrder := s'.outputOrder)
  }

  lemma RouteBinds(s: Life, k: string, i: nat)
    ensures var s' := BindRoute(s, k, i);
      && Within(if k == "" then s.outputTurns else s.outputTurns[k := i], s'.outputTurns)
      && (k != "" && |s.outputTurns.Keys + {k}| <= MAX_ROUTES ==> s'.outputTurns == s.outputTurns[k := i])
      && (k == "" ==> s'.outputTurns == s.outputTurns)
  {
    if k != "" {
      var s1 := s.(outputTurns := s.outputTurns[k := i], outputOrder := s.outputOrder + [k]);
      assert s1.outputTurns.Keys == s.outputTurns.Keys + {k};
      TrimKeeps(s1);
    }
  }

  lemma BindBinds(s: Life, c: Output, i: nat)
    requires Formed(s) && Bounded(s) && |s.epochTurns| < MAX_ROUTES && i in s.turns
    requires c.epoch.Some? && c.epoch.value !in s.epochTurns
    ensures Bound(s, BindRoute(BindEpoch(s, c.epoch.value, i), c.streamID, i), c, i)
  {
    var s1 := BindEpoch(s, c.epoch.value, i);
    BindEpochForms(s, c.epoch.value, i);
    BindRouteForms(s1, c.streamID, i);
    RouteBinds(s1, c.streamID, i);
  }

  /** The turn of the epoch that was bound first goes when there is no room for another. */
  function Victim(s: Life): (i: nat)
    requires Formed(s)
  {
    assert Obeys(s, EpochLaw);
    if s.epochOrder == [] then 0 else s.epochTurns[s.epochOrder[0]]
  }

  /** What finding the turn of a chunk does, told by the stream IDs. */
  ghost predicate Finds(ids: seq<string>, s: Life, c: Output, s': Life, turn: Option<nat>)
    requires Formed(s)
  {
    if c.epoch.None? then s' == s && turn.None?
    else
      var e := c.epoch.value;
      if e in s.epochTurns then s' == s && turn == Some(s.epochTurns[e])
      else if !Owner(ids, s, e) then s' == s && turn.None?
      else if |s.epochTurns| < MAX_ROUTES then Bound(s, s', c, LastOf(ids, e.owner)) && turn == Some(LastOf(ids, e.owner))
      else EvictsAndFinds(ids, s, c, s', turn)
  }

  ghost predicate EvictsAndFinds(ids: seq<string>, s: Life, c: Output, s': Life, turn: Option<nat>)
    requires Formed(s) && c.epoch.Some?
  {
    var i, j := LastOf(ids, c.epoch.value.owner), Victim(s);
    && j in s.turns
    && var m := End(s, j, StateLimit, StateLimit);
       if i == j then s' == m && turn.None? else Bound(m, s', c, i) && turn == Some(i)
  }

  /** One ended turn makes room. */
  lemma EvictsOne(s: Life, owner: string)
    requires Formed(s) && |s.epochTurns| == MAX_ROUTES && Owned(s, owner).Some?
    ensures Victim(s) in s.turns && EvictEpochs(s, owner) == End(s, Victim(s), StateLimit, StateLimit)
  {
    assert Obeys(s, EpochLaw);
    var e :| e in s.epochTurns.Keys;
    assert e in s.epochOrder;
    assert Victim(s) in s.epochTurns.Values;
    EndForms(s, Victim(s), StateLimit, StateLimit);
  }

  lemma OutputTurnFinds(ids: seq<string>, s: Life, c: Output)
    requires Formed(s) && Bounded(s) && Tied(ids, s)
    ensures Finds(ids, s, c, OutputTurn(s, c).life, OutputTurn(s, c).turn)
  {
    if c.epoch.Some? && c.epoch.value !in s.epochTurns {
      var e := c.epoch.value;
      OwnedTied(ids, s, e.owner);
      if Owner(ids, s, e) {
        if |s.epochTurns| < MAX_ROUTES {
          BindBinds(s, c, LastOf(ids, e.owner));
        } else {
          EvictedFinds(ids, s, c);
        }
      }
    }
  }

  lemma EvictedFinds(ids: seq<string>, s: Life, c: Output)
    requires Formed(s) && Bounded(s) && Tied(ids, s) && |s.epochTurns| == MAX_ROUTES
    requires c.epoch.Some? && c.epoch.value !in s.epochTurns && Owner(ids, s, c.epoch.value)
    ensures EvictsAndFinds(ids, s, c, OutputTurn(s, c).life, OutputTurn(s, c).turn)
  {
    var e, j := c.epoch.value, Victim(s);
    var i := LastOf(ids, e.owner);
    OwnedTied(ids, s, e.owner);
    EvictsOne(s, e.owner);
    var m := End(s, j, StateLimit, StateLimit);
    EvictEpochsForms(s, e.owner);
    EndForms(s, j, StateLimit, StateLimit);
    EndSheds(s, j, StateLimit, StateLimit);
    ShedsTied(ids, s, m);
    OwnedTied(ids, m, e.owner);
    assert i in m.turns <==> i in m.turns.Keys;
    if i != j {
      BindBinds(m, c, i);
    }
  }

  /** If epoch `e` is bound, then to a live turn whose BOS carried the stream ID that owns it. */
  ghost predicate NamesOwner(ids: seq<string>, s: Life, e: Epoch) {
    e in s.epochTurns ==>
      var i := s.epochTurns[e]; 1 <= i <= |ids| && ids[i - 1] == e.owner && i in s.turns
  }

  lemma EpochNamesOwner(ids: seq<string>, s: Life, e: Epoch)
    requires Formed(s) && Tied(ids, s)
    ensures NamesOwner(ids, s, e)
  {
    assert EpochTied(ids, s, e);
    assert Obeys(s, EpochLaw);
  }

  /** In every reachable state every bound epoch names a turn of its owner. */
  lemma EpochsNameTheirOwner(es: seq<Event>, e: Epoch)
    ensures NamesOwner(Begun(es), Run(es), e)
  {
    RunTied(es);
    EpochNamesOwner(Begun(es), Run(es), e);
  }

  /** A known input stream names the turn of its last BOS, and it is known exactly while that
      turn lives. */
  lemma InputsNameTheirLastTurn(es: seq<Event>, id: string)
    ensures var s, i := Run(es), LastOf(Begun(es), id);
      && (id in s.inputTurns <==> id != "" && i in s.turns) && (id in s.inputTurns ==> s.inputTurns[id] == i)
      && s.nextIndex == |Begun(es)| && s.current == (if |Begun(es)| in s.turns then |Begun(es)| else 0)
  {
    RunTied(es);
  }

  /** What an output chunk does to the indexes in every reachable state: an unbound epoch is
      bound, with its route, to the last turn of the stream that owns it, if that lives; with 64
      epochs the turn of the first bound one ends before. */
  lemma ChunkFinds(es: seq<Event>, c: Output)
    ensures Finds(Begun(es), Run(es), c, OutputTurn(Run(es), c).life, OutputTurn(Run(es), c).turn)
  {
    RunTied(es);
    OutputTurnFinds(Begun(es), Run(es), c);
  }

  // ----------------------------------------------------------------------- told from the events

  /** Event `e` after `es` bound epoch `x`. */
  ghost predicate Binds(es: seq<Event>, e: Event, x: Epoch) {
    Carries(e) && e.chunk.epoch == Some(x) && x !in Run(es).epochTurns && x in Run(es + [e]).epochTurns
  }

  /** When epoch `x` was bound last. */
  ghost function BoundAt(es: seq<Event>, x: Epoch): (n: nat)
    ensures n <= |es|
  {
    if es == [] then 0
    else
      var pre, e := es[..|es| - 1], es[|es| - 1];
      if Binds(pre, e, x) then |es| else BoundAt(pre, x)
  }

  /** The turn that route `k` was bound to last. */
  ghost function RouteOf(es: seq<Event>, k: string): (i: nat) {
    if es == [] then 0
    else
      var pre, e := es[..|es| - 1], es[|es| - 1];
      if Carries(e) && e.chunk.epoch.Some? && e.chunk.streamID == k != "" && Binds(pre, e, e.chunk.epoch.value)
      then LastOf(Begun(pre), e.chunk.epoch.value.owner) else RouteOf(pre, k)
  }

  /** The epoch and the route of `c` are bound to turn `i`; what else is left keeps its place. */
  ghost predicate Gains(s: Life, s': Life, c: Output, i: nat)
    requires c.epoch.Some?
  {
    && GainsEpoch(s, s', c.epoch.value, i)
    && Within(if c.streamID == "" then s.outputTurns else s.outputTurns[c.streamID := i], s'.outputTurns)
  }

  ghost predicate GainsEpoch(s: Life, s': Life, x: Epoch, i: nat) {
    && x in s'.epochTurns && Within(s.epochTurns[x := i], s'.epochTurns)
    && s'.epochOrder == Keep(s.epochOrder, s'.epochTurns.Keys) + [x]
  }

  /** A step binds the chunk's epoch and route, or nothing. */
  ghost predicate Indexes(ids: seq<string>, s: Life, e: Event, s': Life) {
    if Carries(e) && e.chunk.epoch.Some? && e.chunk.epoch.value !in s.epochTurns && e.chunk.epoch.value in s'.epochTurns
    then Gains(s, s', e.chunk, LastOf(ids, e.chunk.epoch.value.owner))
    else Slims(s, s')
  }

  /** Binding after some turns were ended. */
  lemma BoundGains(s: Life, m: Life, s': Life, c: Output, i: nat)
    requires Formed(s) && c.epoch.Some? && c.epoch.value !in s.epochTurns && Slims(s, m) && Bound(m, s', c, i)
    ensures Gains(s, s', c, i)
  {
    BoundGainsEpoch(s, m, s', c.epoch.value, i);
    RoutesGain(s.outputTurns, m.outputTurns, s'.outputTurns, c.streamID, i);
  }

  lemma BoundGainsEpoch(s: Life, m: Life, s': Life, x: Epoch, i: nat)
    requires Formed(s) && x !in s.epochTurns && Within(s.epochTurns, m.epochTurns)
    requires m.epochOrder == Keep(s.epochOrder, m.epochTurns.Keys)
    requires s'.epochTurns == m.epochTurns[x := i] && s'.epochOrder == m.epochOrder + [x]
    ensures GainsEpoch(s, s', x, i)
  {
    OrderBound(s, m.epochTurns.Keys, s'.epochTurns.Keys, x);
  }

  lemma RoutesGain(routes: map<string, nat>, left: map<string, nat>, routes': map<string, nat>, k: string, i: nat)
    requires Within(routes, left) && Within(if k == "" then left else left[k := i], routes')
    ensures Within(if k == "" then routes else routes[k := i], routes')
  {
  }

  lemma OrderBound(s: Life, left: set<Epoch>, left': set<Epoch>, x: Epoch)
    requires Formed(s) && x !in s.epochTurns && left' == left + {x}
    ensures Keep(s.epochOrder, left') == Keep(s.epochOrder, left)
  {
    assert Obeys(s, EpochLaw);
    KeepSame(s.epochOrder, left, left');
  }

  lemma {:induction false} KeepSame<T>(xs: seq<T>, keep: set<T>, keep': set<T>)
    requires forall x :: x in xs ==> (x in keep <==> x in keep')
    ensures Keep(xs, keep) == Keep(xs, keep')
  {
    if xs != [] {
      KeepSame(xs[..|xs| - 1], keep, keep');
    }
  }

  lemma FindIndexes(ids: seq<string>, s: Life, e: Event)
    requires Formed(s) && Bounded(s) && Tied(ids, s) && Carries(e)
    ensures Indexes(ids, s, e, OutputTurn(s, e.chunk).life)
  {
    var c, s' := e.chunk, OutputTurn(s, e.chunk).life;
    OutputTurnFinds(ids, s, c);
    SameSlims(s, s);
    if c.epoch.Some? && c.epoch.value !in s.epochTurns && Owner(ids, s, c.epoch.value) {
      var i := LastOf(ids, c.epoch.value.owner);
      if |s.epochTurns| < MAX_ROUTES {
        BoundGains(s, s, s', c, i);
      } else {
        var m := End(s, Victim(s), StateLimit, StateLimit);
        EndSheds(s, Victim(s), StateLimit, StateLimit);
        ShedsSlims(s, m);
        if i != Victim(s) {
          BoundGains(s, m, s', c, i);
        }
      }
    }
  }

  lemma TouchedIndexes(ids: seq<string>, s: Life, e: Event, m: Life, s': Life)
    requires Indexes(ids, s, e, m) && s'.epochTurns == m.epochTurns && s'.epochOrder == m.epochOrder && s'.outputTurns == m.outputTurns
    ensures Indexes(ids, s, e, s')
  {
  }

  lemma UnroutedIndexes(ids: seq<string>, s: Life, e: Event, m: Life, c: Output)
    requires Indexes(ids, s, e, m)
    ensures Indexes(ids, s, e, Unrouted(m, c))
  {
  }

  /** Ending the turn of the chunk unbinds its epoch and its route. */
  lemma EndedIndexes(ids: seq<string>, s: Life, e: Event, m: Life, s': Life, i: nat)
    requires Formed(s) && Indexes(ids, s, e, m) && Formed(m) && Formed(s') && Sheds(m, s') && i !in s'.turns
    requires Carries(e) && e.chunk.epoch.Some? && e.chunk.epoch.value in m.epochTurns && m.epochTurns[e.chunk.epoch.value] == i
    requires e.chunk.epoch.value !in s.epochTurns ==> i == LastOf(ids, e.chunk.epoch.value.owner)
    ensures Indexes(ids, s, e, s')
  {
    var x := e.chunk.epoch.value;
    assert Obeys(s', LinkLaw);
    ShedsSlims(m, s');
    if x in s.epochTurns {
      SlimsOn(s, m, s');
    } else {
      var left := Keep(s.epochOrder, m.epochTurns.Keys);
      assert m.epochOrder[..|m.epochOrder| - 1] == left && m.epochOrder[|m.epochOrder| - 1] == x;
      KeepTwice(s.epochOrder, m.epochTurns.Keys, s'.epochTurns.Keys);
      assert forall k :: k in s'.outputTurns ==> s'.outputTurns[k] in s'.turns.Keys;
    }
  }

  lemma DrainIndexes(ids: seq<string>, s: Life, c: Output)
    requires Formed(s) && Bounded(s) && Tied(ids, s)
    ensures Indexes(ids, s, Drain(c), Step(s, Drain(c)))
  {
    DrainIsStep(s, c);
    if !c.epochEnd {
      SameSlims(s, s);
    } else {
      var e, f := Drain(c), OutputTurn(s, c);
      OutputTurnForms(s, c);
      FindIndexes(ids, s, e);
      if ObserveDrained(s, c) != f.life {
        var i := f.turn.value;
        OutputTurnFinds(ids, s, c);
        EndOutputForms(f.life, c, i);
        EndOutputSheds(f.life, c, i);
        EndOutputEnds(f.life, c, i);
        UnroutedForms(f.life, c);
        UnroutedIndexes(ids, s, e, f.life, c);
        EndedIndexes(ids, s, e, Unrouted(f.life, c), EndOutput(f.life, c, i), i);
      }
    }
  }

  lemma EndOutputEnds(s: Life, c: Output, i: nat)
    requires i in s.turns
    ensures EndOutput(s, c, i).turns.Keys == s.turns.Keys - {i}
  {
  }

  lemma DeliverIndexes(ids: seq<string>, s: Life, c: Output, modal: bool)
    requires Formed(s) && Bounded(s) && Tied(ids, s)
    ensures Indexes(ids, s, Deliver(c, modal), Step(s, Deliver(c, modal)))
  {
    OutputTurnForms(s, c);
    FindIndexes(ids, s, Deliver(c, modal));
    TouchedIndexes(ids, s, Deliver(c, modal), OutputTurn(s, c).life, ObserveDelivered(s, c, modal));
  }

  lemma ProduceIndexes(ids: seq<string>, s: Life, c: Output)
    requires Formed(s) && Bounded(s) && Tied(ids, s)
    ensures Indexes(ids, s, Produce(c), Step(s, Produce(c)))
  {
    OutputTurnForms(s, c);
    FindIndexes(ids, s, Produce(c));
    TouchedIndexes(ids, s, Produce(c), OutputTurn(s, c).life, ObserveProduced(s, c));
  }

  lemma StepIndexes(ids: seq<string>, s: Life, e: Event)
    requires Formed(s) && Bounded(s) && Tied(ids, s)
    ensures Indexes(ids, s, e, Step(s, e))
  {
    match e
    case Deliver(c, modal) => DeliverIndexes(ids, s, c, modal);
    case Produce(c) => ProduceIndexes(ids, s, c);
    case Drain(c) => DrainIndexes(ids, s, c);
    case _ => OtherSlims(s, e);
  }

  lemma RunIndexes(es: seq<Event>, e: Event)
    ensures Indexes(Begun(es), Run(es), e, Run(es + [e]))
  {
    RunTied(es);
    RunExtends(es, e);
    StepIndexes(Begun(es), Run(es), e);
  }

  /** Every output route names the turn that it was bound to last, with an epoch of its owner. */
  lemma {:induction false} RoutesNameTheirTurn(es: seq<Event>, k: string)
    ensures k in Run(es).outputTurns ==> Run(es).outputTurns[k] == RouteOf(es, k)
  {
    if es != [] {
      var pre, e := es[..|es| - 1], es[|es| - 1];
      assert es == pre + [e];
      RoutesNameTheirTurn(pre, k);
      RunIndexes(pre, e);
      if k in Run(es).outputTurns {
        RouteStep(Begun(pre), Run(pre), e, Run(es), k);
      }
    }
  }

  lemma RouteStep(ids: seq<string>, s: Life, e: Event, s': Life, k: string)
    requires Indexes(ids, s, e, s') && k in s'.outputTurns
    ensures s'.outputTurns[k] ==
      if && Carries(e) && e.chunk.epoch.Some? && e.chunk.streamID == k != ""
         && e.chunk.epoch.value !in s.epochTurns && e.chunk.epoch.value in s'.epochTurns
      then LastOf(ids, e.chunk.epoch.value.owner)
      else if k in s.outputTurns then s.outputTurns[k] else 0
    ensures k in s.outputTurns || (Carries(e) && e.chunk.streamID == k)
  {
  }

  ghost predicate InBindingOrder(es: seq<Event>, xs: seq<Epoch>) {
    forall a, b :: 0 <= a < b < |xs| ==> BoundAt(es, xs[a]) < BoundAt(es, xs[b])
  }

  lemma {:induction false} KeepInOrder(es: seq<Event>, xs: seq<Epoch>, keep: set<Epoch>)
    requires InBindingOrder(es, xs)
    ensures InBindingOrder(es, Keep(xs, keep))
  {
    if xs != [] {
      var pre, last := xs[..|xs| - 1], xs[|xs| - 1];
      KeepInOrder(es, pre, keep);
      KeepMembers(pre, keep);
      var r := Keep(pre, keep);
      forall j | 0 <= j < |r| ensures BoundAt(es, r[j]) < BoundAt(es, last) {
        assert r[j] in pre;
        var k :| 0 <= k < |pre| && pre[k] == r[j];
        assert BoundAt(es, xs[k]) < BoundAt(es, xs[|xs| - 1]);
      }
    }
  }

  lemma ExtendInOrder(pre: seq<Event>, e: Event, xs: seq<Epoch>)
    requires InBindingOrder(pre, xs) && forall x :: x in xs ==> x in Run(pre).epochTurns
    ensures InBindingOrder(pre + [e], xs)
  {
    assert (pre + [e])[..|pre + [e]| - 1] == pre;
  }

  /** Epochs are listed in the order in which they were bound: the one whose turn has to go when
      there is no room is the one that was bound longest ago. */
  lemma {:induction false} EpochsInBindingOrder(es: seq<Event>)
    ensures InBindingOrder(es, Run(es).epochOrder)
  {
    if es != [] {
      var pre, e := es[..|es| - 1], es[|es| - 1];
      assert es == pre + [e];
      EpochsInBindingOrder(pre);
      RunIndexes(pre, e);
      var s, s' := Run(pre), Run(es);
      assert Obeys(s, EpochLaw);
      var left := Keep(s.epochOrder, s'.epochTurns.Keys);
      KeepInOrder(pre, s.epochOrder, s'.epochTurns.Keys);
      KeepMembers(s.epochOrder, s'.epochTurns.Keys);
      ExtendInOrder(pre, e, left);
      if s'.epochOrder != left {
        var x := e.chunk.epoch.value;
        BoundLast(pre, e, left, x);
      }
    }
  }

  lemma BoundLast(pre: seq<Event>, e: Event, xs: seq<Epoch>, x: Epoch)
    requires InBindingOrder(pre + [e], xs) && Binds(pre, e, x) && forall y :: y in xs ==> y in Run(pre).epochTurns
    ensures InBindingOrder(pre + [e], xs + [x])
  {
    assert (pre + [e])[..|pre + [e]| - 1] == pre;
    forall y | y in xs ensures BoundAt(pre + [e], y) < BoundAt(pre + [e], x) {
      assert !Binds(pre, e, y);
    }
  }
}
