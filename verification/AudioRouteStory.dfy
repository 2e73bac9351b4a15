/** When the audio route aggregator refuses, suppresses or passes a boundary, told from what it
    was asked before (pkgs/gizclaw/peer_stream_event.go). */
module AudioRouteStories {
  import opened Options
  import opened Collections
  import opened AudioRoutes

  /** Route `k` was cut over while it played, and has not been ended since: neither by an EOS that
      came while it did not play again, nor by a control EOS of its stream. */
  predicate CutOver(acts: seq<Act>, k: Key) {
    if acts == [] then false
    else
      var pre := acts[..|acts| - 1];
      match acts[|acts| - 1]
      case Cut => CutOver(pre, k) || Plays(pre, k)
      case Ends(id, _) => CutOver(pre, k) && k.streamID != id
      case Hears(e) => CutOver(pre, k) && !(e.Boundary? && !e.begins && e.key == Some(k) && !Plays(pre, k))
  }

  function Newest(ks: seq<Key>): (r: seq<Key>) { if |ks| > MAX_COMPLETED then ks[|ks| - MAX_COMPLETED..] else ks }

  /** The newest 64 routes that ended, each once. */
  function Remember(order: seq<Key>, k: Key): (r: seq<Key>) { if k in order then order else Newest(order + [k]) }

  function RememberAll(order: seq<Key>, ks: seq<Key>): (r: seq<Key>) {
    if ks == [] then order else Remember(RememberAll(order, ks[..|ks| - 1]), ks[|ks| - 1])
  }

  /** The routes that ended by their own EOS or while they played, by a control EOS. */
  function Ended(acts: seq<Act>): (order: seq<Key>) {
    if acts == [] then []
    else
      var pre := acts[..|acts| - 1];
      match acts[|acts| - 1]
      case Cut => Ended(pre)
      case Ends(_, order) => RememberAll(Ended(pre), order)
      case Hears(e) =>
        if e.Boundary? && !e.begins && e.key.Some? && (Plays(pre, e.key.value) || CutOver(pre, e.key.value))
        then Remember(Ended(pre), e.key.value) else Ended(pre)
  }

  lemma RecordRemembers(s: Routes, k: Key)
    requires Remembered(s)
    ensures RecordCompleted(s, k).completedOrder == Remember(s.completedOrder, k)
  {
  }

  lemma {:induction false} CompleteRemembers(s: Routes, order: seq<Key>)
    requires Remembered(s)
    ensures Complete(s, order).completedOrder == RememberAll(s.completedOrder, order)
  {
    if order != [] {
      CompleteRemembers(s, order[..|order| - 1]);
      CompleteKeeps(s, order[..|order| - 1]);
      RecordRemembers(Complete(s, order[..|order| - 1]), order[|order| - 1]);
    }
  }

  /** The aggregator's sets are what the story says. */
  ghost predicate Matches(acts: seq<Act>, s: Routes) {
    && (forall k :: k in s.active <==> Plays(acts, k))
    && (forall k :: k in s.retired <==> CutOver(acts, k))
    && s.completedOrder == Ended(acts)
  }

  lemma CutMatches(pre: seq<Act>, m: Routes, k: Key)
    requires Inv(m) && Matches(pre, m)
    ensures var s := Cutover(m); (k in s.retired <==> CutOver(pre + [Cut], k)) && s.completedOrder == Ended(pre + [Cut])
  {
    assert (pre + [Cut])[..|pre + [Cut]| - 1] == pre;
  }

  lemma EndsMatches(pre: seq<Act>, m: Routes, id: string, order: seq<Key>, k: Key)
    requires Inv(m) && Matches(pre, m)
    ensures var s, acts := RouteEnd(m, id, order), pre + [Ends(id, order)];
      (k in s.retired <==> CutOver(acts, k)) && s.completedOrder == Ended(acts)
  {
    var acts := pre + [Ends(id, order)];
    assert acts[..|acts| - 1] == pre;
    CompleteRemembers(m.(active := m.active - Of(m.active, id), retired := m.retired - Of(m.retired, id)), order);
  }

  lemma HearsMatches(pre: seq<Act>, m: Routes, e: Event, k: Key)
    requires Inv(m) && Matches(pre, m) && Possible(m, Hears(e)) && Consume(m, e).outcome != Refused
    ensures var s, acts := Consume(m, e).routes, pre + [Hears(e)];
      (k in s.retired <==> CutOver(acts, k)) && s.completedOrder == Ended(acts)
  {
    var acts := pre + [Hears(e)];
    assert acts[..|acts| - 1] == pre;
    if e.Boundary? && e.key.Some? {
      RecordRemembers(m.(active := m.active - {e.key.value}), e.key.value);
      RecordRemembers(m.(retired := m.retired - {e.key.value}), e.key.value);
    }
  }

  lemma GoesMatches(pre: seq<Act>, m: Routes, a: Act, s: Routes, k: Key)
    requires Inv(m) && Matches(pre, m) && Goes(m, a, s)
    ensures (k in s.retired <==> CutOver(pre + [a], k)) && s.completedOrder == Ended(pre + [a])
  {
    match a
    case Cut => CutMatches(pre, m, k);
    case Ends(id, order) => EndsMatches(pre, m, id, order, k);
    case Hears(e) => HearsMatches(pre, m, e, k);
  }

  lemma {:induction false} StoryMatches(acts: seq<Act>, s: Routes)
    requires Consumes(acts, s)
    ensures Matches(acts, s)
  {
    forall k ensures k in s.active <==> Plays(acts, k) {
      ActiveIffPlays(acts, s, k);
    }
    if acts != [] {
      var pre, a := acts[..|acts| - 1], acts[|acts| - 1];
      assert acts == pre + [a];
      var m :| Consumes(pre, m) && Goes(m, a, s);
      StoryMatches(pre, m);
      ConsumesKeeps(pre, m);
      GoesMatches(pre, m, a, s, Key("", ""));
      forall k ensures k in s.retired <==> CutOver(acts, k) {
        GoesMatches(pre, m, a, s, k);
      }
    }
  }

  // ----------------------------------------------------------------------------- theorems

  /** A boundary is refused exactly when it names no route, begins one that plays, or ends one
      that neither plays, nor was cut over, nor is among the newest 64 that ended while the EOS
      reports a control error. Nothing that is not audio is refused. */
  lemma RefusedIff(acts: seq<Act>, s: Routes, e: Event)
    requires Consumes(acts, s) && Possible(s, Hears(e))
    ensures Consume(s, e).outcome == Refused <==>
      && e.Boundary?
      && (|| e.key.None?
          || (e.begins && Plays(acts, e.key.value))
          || (!e.begins && !Plays(acts, e.key.value) && !CutOver(acts, e.key.value)
              && !(e.controlError && e.key.value in Ended(acts))))
  {
    StoryMatches(acts, s);
    ConsumesKeeps(acts, s);
  }

  /** The EOS of the BOS that was sent last. */
  function Closing(sent: seq<Sent>): (x: Sent) {
    if sent == [] then Finish("", "") else Finish(sent[|sent| - 1].id, sent[|sent| - 1].name)
  }

  /** No other route than `k` plays. */
  ghost predicate Alone(acts: seq<Act>, k: Key) { forall j :: Plays(acts, j) ==> j == k }

  /** A BOS that is not refused reaches the device exactly when no route plays, and then opens
      the epoch; an EOS exactly when its route is the only one that plays, and then closes it.
      Otherwise the device is sent nothing. */
  lemma EmittedIff(acts: seq<Act>, s: Routes, e: Event)
    requires Consumes(acts, s) && Possible(s, Hears(e)) && e.Boundary? && Consume(s, e).outcome != Refused
    ensures var r := Consume(s, e);
      && (r.outcome == Emitted <==> Alone(acts, e.key.value) && (Plays(acts, e.key.value) <==> !e.begins))
      && r.routes.sent == (
           if r.outcome != Emitted then s.sent
           else s.sent + [if e.begins then Begin(e.streamID, e.name) else Closing(s.sent)])
  {
    StoryMatches(acts, s);
    ConsumesKeeps(acts, s);
    AloneIff(acts, s, e.key.value);
    BoundarySends(s, e);
  }

  lemma BoundarySends(s: Routes, e: Event)
    requires Inv(s) && Possible(s, Hears(e)) && e.Boundary? && Consume(s, e).outcome != Refused
    ensures var r := Consume(s, e);
      && (r.outcome == Emitted <==> if e.begins then s.active == {} else e.key.value in s.active && s.active - {e.key.value} == {})
      && r.routes.sent == (
           if r.outcome != Emitted then s.sent
           else s.sent + [if e.begins then Begin(e.streamID, e.name) else Closing(s.sent)])
  {
  }

  lemma RouteEndSends(s: Routes, id: string, order: seq<Key>)
    requires Inv(s)
    ensures RouteEnd(s, id, order).sent ==
      if Of(s.active, id) != {} && s.active - Of(s.active, id) == {} then s.sent + [Closing(s.sent)] else s.sent
  {
  }

  lemma CutSends(s: Routes)
    requires Inv(s)
    ensures Cutover(s).sent == if s.active != {} then s.sent + [Closing(s.sent)] else s.sent
  {
  }

  /** Some route plays. */
  ghost predicate SomePlays(acts: seq<Act>) { exists k :: Plays(acts, k) }

  lemma SomePlaysIff(acts: seq<Act>, s: Routes)
    requires Matches(acts, s)
    ensures SomePlays(acts) <==> s.active != {}
  {
    if s.active != {} {
      var k :| k in s.active;
      assert Plays(acts, k);
    }
  }

  lemma AloneIff(acts: seq<Act>, s: Routes, k: Key)
    requires Matches(acts, s)
    ensures Alone(acts, k) <==> s.active - {k} == {}
    ensures Alone(acts, k) && !Plays(acts, k) <==> s.active == {}
  {
    if s.active - {k} == {} {
      forall j | Plays(acts, j) ensures j == k {
        assert j in s.active && j !in s.active - {k};
      }
    } else {
      var j :| j in s.active - {k};
      assert Plays(acts, j);
    }
  }

  /** A cutover closes the epoch exactly when some route plays. */
  lemma CutClosesIff(acts: seq<Act>, s: Routes)
    requires Consumes(acts, s)
    ensures Do(s, Cut).routes.sent == if SomePlays(acts) then s.sent + [Closing(s.sent)] else s.sent
  {
    StoryMatches(acts, s);
    ConsumesKeeps(acts, s);
    SomePlaysIff(acts, s);
    CutSends(s);
  }

  /** A control EOS closes it exactly when some route plays and all that do are of its stream. */
  ghost predicate LastOnes(acts: seq<Act>, id: string) {
    SomePlays(acts) && forall k :: Plays(acts, k) ==> k.streamID == id
  }

  lemma EndsClosesIff(acts: seq<Act>, s: Routes, id: string, order: seq<Key>)
    requires Consumes(acts, s) && Possible(s, Ends(id, order))
    ensures Do(s, Ends(id, order)).routes.sent == if LastOnes(acts, id) then s.sent + [Closing(s.sent)] else s.sent
  {
    StoryMatches(acts, s);
    ConsumesKeeps(acts, s);
    LastOnesIff(acts, s, id);
    RouteEndSends(s, id, order);
  }

  lemma LastOnesIff(acts: seq<Act>, s: Routes, id: string)
    requires Matches(acts, s)
    ensures LastOnes(acts, id) <==> Of(s.active, id) != {} && s.active - Of(s.active, id) == {}
  {
    var ended := Of(s.active, id);
    if LastOnes(acts, id) {
      var k :| Plays(acts, k);
      assert k in ended;
    } else if ended != {} {
      var j :| j in ended;
      assert Plays(acts, j);
      var k :| Plays(acts, k) && k.streamID != id;
      assert k in s.active - ended;
    }
  }
}
