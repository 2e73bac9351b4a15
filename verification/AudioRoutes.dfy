/** The audio route aggregator (pkgs/gizclaw/peer_stream_event.go): any number of concurrent
    audio routes of an agent appear to the device as one bracketed epoch at a time. */
module AudioRoutes {
  import opened Options
  import opened Collections

  const MAX_COMPLETED: nat := 64

  datatype Key = Key(streamID: string, mime: string)

  /** What is handed to Broadcast: begin and end of an audio epoch. */
  datatype Sent = Begin(id: string, name: string) | Finish(id: string, name: string)

  /** `epoch` is the route whose BOS opened the epoch; its stream ID is empty between epochs. */
  datatype Routes = Routes(
    active: set<Key>, retired: set<Key>, completed: set<Key>, completedOrder: seq<Key>,
    epochID: string, epochName: string, sent: seq<Sent>)

  /** A peer event: `key` is None when the boundary has no stream ID or no audio MIME type. */
  datatype Event =
    | NotAudio
    | Boundary(begins: bool, streamID: string, name: string, key: Option<Key>, controlError: bool)

  datatype Outcome = Emitted | Suppressed | Refused

  datatype Result = Result(routes: Routes, outcome: Outcome)

  function Start(): (s: Routes) {
    Routes({}, {}, {}, [], "", "", [])
  }

  function EndEpoch(s: Routes): (s': Routes) {
    s.(sent := s.sent + [Finish(s.epochID, s.epochName)], epochID := "", epochName := "")
  }

  /** cutoverOwned: a barge-in retires every active route. */
  function Cutover(s: Routes): (s': Routes) {
    if s.epochID == "" || s.active == {} then s
    else EndEpoch(s.(retired := s.retired + s.active, active := {}))
  }

  function RecordCompleted(s: Routes, k: Key): (s': Routes)
    ensures s' == s.(completed := s'.completed, completedOrder := s'.completedOrder)
  {
    if k in s.completed then s
    else if |s.completedOrder| == MAX_COMPLETED
    then s.(completed := s.completed - {s.completedOrder[0]} + {k}, completedOrder := s.completedOrder[1..] + [k])
    else s.(completed := s.completed + {k}, completedOrder := s.completedOrder + [k])
  }

  /** consumeChunk */
  function Consume(s: Routes, e: Event): (r: Result)
    requires e.Boundary? && e.key.Some? ==> e.streamID != ""
  {
    if e.NotAudio? then Result(s, Emitted)
    else if e.key.None? then Result(s, Refused)
    else
      var k := e.key.value;
      if e.begins then
        if k in s.active then Result(s, Refused)
        else if s.active != {} then Result(s.(active := s.active + {k}), Suppressed)
        else Result(s.(active := {k}, epochID := e.streamID, epochName := e.name,
                       sent := s.sent + [Begin(e.streamID, e.name)]), Emitted)
      else if k in s.active then
        var s1 := RecordCompleted(s.(active := s.active - {k}), k);
        if s1.active != {} then Result(s1, Suppressed) else Result(EndEpoch(s1), Emitted)
      else if k in s.retired then Result(RecordCompleted(s.(retired := s.retired - {k}), k), Suppressed)
      else if k in s.completed && e.controlError then Result(s, Suppressed)
      else Result(s, Refused)
  }

  function Complete(s: Routes, order: seq<Key>): (s': Routes)
    ensures s' == s.(completed := s'.completed, completedOrder := s'.completedOrder)
  {
    if order == [] then s else RecordCompleted(Complete(s, order[..|order| - 1]), order[|order| - 1])
  }

  function Of(ks: set<Key>, streamID: string): (r: set<Key>) { set k | k in ks && k.streamID == streamID }

  ghost predicate Enumerates(order: seq<Key>, ks: set<Key>) {
    (forall k :: k in order <==> k in ks) && |order| == |ks|
  }

  /** consumeRouteEOS: a control EOS ends every route of its stream, in some order. */
  function RouteEnd(s: Routes, streamID: string, order: seq<Key>): (s': Routes) {
    var ended := Of(s.active, streamID);
    var s1 := Complete(s.(active := s.active - ended, retired := s.retired - Of(s.retired, streamID)), order);
    if ended == {} || s1.active != {} then s1 else EndEpoch(s1)
  }

  function Abort(s: Routes): (s': Routes) {
    if s.active == {} || s.epochID == "" then s else EndEpoch(s.(active := {}))
  }

  // --------------------------------------------------------------------------- invariants

  /** An even position holds a BOS, an odd one the EOS of the BOS before it. */
  ghost predicate InPlace(sent: seq<Sent>, i: nat)
    requires i < |sent|
  {
    if i % 2 == 0 then sent[i].Begin? else sent[i] == Finish(sent[i - 1].id, sent[i - 1].name)
  }

  ghost predicate Alternates(sent: seq<Sent>) {
    forall i :: 0 <= i < |sent| ==> InPlace(sent, i)
  }

  /** An epoch is open exactly while some route is active, and it is the last one begun. */
  ghost predicate Bracketed(s: Routes) {
    && Alternates(s.sent)
    && (s.active != {} <==> s.epochID != "")
    && (s.active != {} <==> |s.sent| % 2 == 1)
    && (s.active != {} ==> s.sent[|s.sent| - 1] == Begin(s.epochID, s.epochName))
  }

  /** completed is the duplicate-free completedOrder, which holds at most 64 routes. */
  ghost predicate Remembered(s: Routes) {
    && |s.completedOrder| <= MAX_COMPLETED
    && (forall k :: k in s.completed <==> k in s.completedOrder)
    && Distinct(s.completedOrder)
  }

  ghost predicate Inv(s: Routes) { Bracketed(s) && Remembered(s) }

  lemma RecordKeeps(s: Routes, k: Key)
    requires Remembered(s)
    ensures Remembered(RecordCompleted(s, k)) && k in RecordCompleted(s, k).completed
  {
    var s' := RecordCompleted(s, k);
    if k !in s.completed && |s.completedOrder| == MAX_COMPLETED {
      var first, rest := s.completedOrder[0], s.completedOrder[1..];
      assert s.completedOrder == [first] + rest;
      assert forall x :: x in rest ==> x in s.completedOrder && x != first;
    }
  }

  lemma {:induction false} CompleteKeeps(s: Routes, order: seq<Key>)
    requires Remembered(s)
    ensures Remembered(Complete(s, order))
  {
    if order != [] {
      CompleteKeeps(s, order[..|order| - 1]);
      RecordKeeps(Complete(s, order[..|order| - 1]), order[|order| - 1]);
    }
  }

  lemma AlternatesGrows(sent: seq<Sent>, x: Sent)
    requires Alternates(sent)
    requires if |sent| % 2 == 0 then x.Begin? else x == Finish(sent[|sent| - 1].id, sent[|sent| - 1].name)
    ensures Alternates(sent + [x])
  {
    forall i | 0 <= i < |sent + [x]| ensures InPlace(sent + [x], i) {
      assert i < |sent| ==> InPlace(sent, i);
    }
  }

  /** Ending the last routes closes the epoch. */
  lemma EndKeeps(s: Routes, s': Routes)
    requires Bracketed(s) && s.active != {} && s'.active == {}
    requires s'.sent == s.sent + [Finish(s.epochID, s.epochName)] && s'.epochID == ""
    ensures Bracketed(s')
  {
    AlternatesGrows(s.sent, Finish(s.epochID, s.epochName));
  }

  lemma AlternatesBegins(s: Routes, id: string, name: string)
    requires Bracketed(s)
    ensures s.active == {} ==> Alternates(s.sent + [Begin(id, name)])
  {
    if s.active == {} {
      AlternatesGrows(s.sent, Begin(id, name));
    }
  }

  lemma ConsumeKeeps(s: Routes, e: Event)
    requires Inv(s) && (e.Boundary? && e.key.Some? ==> e.streamID != "")
    ensures Inv(Consume(s, e).routes)
  {
    if e.Boundary? && e.key.Some? {
      var k := e.key.value;
      if e.begins {
        AlternatesBegins(s, e.streamID, e.name);
      } else if k in s.active {
        RecordKeeps(s.(active := s.active - {k}), k);
        if s.active - {k} == {} {
          EndKeeps(s, Consume(s, e).routes);
        }
      } else if k in s.retired {
        RecordKeeps(s.(retired := s.retired - {k}), k);
      }
    }
  }

  lemma CutoverKeeps(s: Routes)
    requires Inv(s)
    ensures Inv(Cutover(s)) && Cutover(s).active == {}
  {
    if s.active != {} {
      EndKeeps(s, Cutover(s));
    }
  }

  lemma RouteEndKeeps(s: Routes, streamID: string, order: seq<Key>)
    requires Inv(s)
    ensures Inv(RouteEnd(s, streamID, order))
  {
    var ended := Of(s.active, streamID);
    CompleteKeeps(s.(active := s.active - ended, retired := s.retired - Of(s.retired, streamID)), order);
    if ended != {} && s.active - ended == {} {
      EndKeeps(s, RouteEnd(s, streamID, order));
    }
  }

  lemma AbortKeeps(s: Routes)
    requires Inv(s)
    ensures Inv(Abort(s)) && Abort(s).active == {}
  {
    if s.active != {} {
      EndKeeps(s, Abort(s));
    }
  }

  // ----------------------------------------------------------------------------- the driver

  /** What the output consumer asks of the aggregator. */
  datatype Act = Cut | Ends(streamID: string, order: seq<Key>) | Hears(event: Event)

  ghost predicate Possible(s: Routes, a: Act) {
    match a
    case Cut => true
    case Ends(id, order) => Enumerates(order, Of(s.active, id))
    case Hears(e) => e.Boundary? && e.key.Some? ==> e.streamID != ""
  }

  function Do(s: Routes, a: Act): (r: Result)
    requires a.Hears? && a.event.Boundary? && a.event.key.Some? ==> a.event.streamID != ""
  {
    match a
    case Cut => Result(Cutover(s), Emitted)
    case Ends(id, order) => Result(RouteEnd(s, id, order), Emitted)
    case Hears(e) => Consume(s, e)
  }

  /** The consumer goes on as long as nothing is refused. */
  ghost predicate Consumes(acts: seq<Act>, s: Routes) {
    if acts == [] then s == Start()
    else
      var pre, a := acts[..|acts| - 1], acts[|acts| - 1];
      exists m :: Consumes(pre, m) && Goes(m, a, s)
  }

  ghost predicate Goes(m: Routes, a: Act, s: Routes) {
    Possible(m, a) && Do(m, a).outcome != Refused && s == Do(m, a).routes
  }

  /** It stops when an event is refused, when broadcasting or the mixer fails, or at the end
      of the output; unless the output ends with no route open, it aborts. */
  ghost predicate Stops(s: Routes, failed: bool, s': Routes) {
    s' == if failed || s.active != {} then Abort(s) else s
  }

  lemma DoKeeps(s: Routes, a: Act)
    requires Inv(s) && Possible(s, a)
    ensures Inv(Do(s, a).routes)
    ensures Do(s, a).outcome == Refused ==> Do(s, a).routes == s
  {
    match a
    case Cut => CutoverKeeps(s);
    case Ends(id, order) => RouteEndKeeps(s, id, order);
    case Hears(e) => ConsumeKeeps(s, e);
  }

  lemma {:induction false} ConsumesKeeps(acts: seq<Act>, s: Routes)
    requires Consumes(acts, s)
    ensures Inv(s)
  {
    if acts != [] {
      var m :| Consumes(acts[..|acts| - 1], m) && Goes(m, acts[|acts| - 1], s);
      ConsumesKeeps(acts[..|acts| - 1], m);
      DoKeeps(m, acts[|acts| - 1]);
    }
  }

  /** However the agent's routes begin, end and are cut over, and however the consumer
      stops: what the device is sent alternates BOS and EOS, each EOS carries the stream ID
      and label of its BOS, and no epoch is left open. */
  lemma DeviceSeesBrackets(acts: seq<Act>, s: Routes, failed: bool, s': Routes)
    requires Consumes(acts, s) && Stops(s, failed, s')
    ensures Alternates(s'.sent) && |s'.sent| % 2 == 0 && s'.active == {} && s.sent <= s'.sent
  {
    ConsumesKeeps(acts, s);
    AbortKeeps(s);
  }

  /** While the consumer runs, an epoch is open exactly when some route is active, and
      completed is the duplicate-free set in completedOrder with at most 64 entries. */
  lemma EpochIsOpenIffActive(acts: seq<Act>, s: Routes)
    requires Consumes(acts, s)
    ensures Bracketed(s) && Remembered(s) && |s.completed| <= MAX_COMPLETED
  {
    ConsumesKeeps(acts, s);
    Sized(s.completed, s.completedOrder);
  }

  lemma {:induction false} Sized(ks: set<Key>, order: seq<Key>)
    requires forall k :: k in ks <==> k in order
    ensures |ks| <= |order|
    decreases order
  {
    if order != [] {
      var k, rest := order[0], order[1..];
      assert order == [k] + rest;
      Sized((set x | x in rest), rest);
      assert ks <= (set x | x in rest) + {k};
      Fewer(ks, (set x | x in rest) + {k});
    } else {
      assert ks == {};
    }
  }

  /** Whether route `k` plays after `acts`: its last boundary was a BOS, and no cutover and no
      control EOS of its stream came after it. */
  predicate Plays(acts: seq<Act>, k: Key) {
    if acts == [] then false
    else
      var before := Plays(acts[..|acts| - 1], k);
      match acts[|acts| - 1]
      case Cut => false
      case Ends(id, _) => before && k.streamID != id
      case Hears(e) => if e.Boundary? && e.key == Some(k) then e.begins else before
  }

  lemma GoesPlays(m: Routes, a: Act, s: Routes, k: Key)
    requires Inv(m) && Goes(m, a, s)
    ensures k in s.active <==>
      match a
      case Cut => false
      case Ends(id, _) => k in m.active && k.streamID != id
      case Hears(e) => if e.Boundary? && e.key == Some(k) then e.begins else k in m.active
  {
  }

  /** The active routes are those that play. */
  lemma {:induction false} ActiveIffPlays(acts: seq<Act>, s: Routes, k: Key)
    requires Consumes(acts, s)
    ensures k in s.active <==> Plays(acts, k)
  {
    if acts != [] {
      var a := acts[|acts| - 1];
      var m :| Consumes(acts[..|acts| - 1], m) && Goes(m, a, s);
      ConsumesKeeps(acts[..|acts| - 1], m);
      ActiveIffPlays(acts[..|acts| - 1], m, k);
      GoesPlays(m, a, s, k);
    }
  }

  // ------------------------------------------------------------------------ the aggregator

  lemma {:induction false} CompleteElsewhere(s: Routes, s': Routes, order: seq<Key>)
    requires s' == s.(active := s'.active, retired := s'.retired)
    ensures Complete(s', order) == Complete(s, order).(active := s'.active, retired := s'.retired)
  {
    if order != [] {
      CompleteElsewhere(s, s', order[..|order| - 1]);
    }
  }

  /** The order in which an iteration over a map meets its keys is arbitrary. */
  method Enumerate(ks: set<Key>) returns (order: seq<Key>)
    ensures Enumerates(order, ks)
  {
    order := [];
    var todo := ks;
    while todo != {}
      invariant todo <= ks && Enumerates(order, ks - todo)
      decreases |todo|
    {
      var k :| k in todo;
      EnumeratesGrows(order, ks - todo, k);
      assert ks - (todo - {k}) == (ks - todo) + {k};
      todo := todo - {k};
      order := order + [k];
    }
    assert ks - todo == ks;
  }

  class Aggregator {
    var active: set<Key>
    var retired: set<Key>
    var completed: set<Key>
    var completedOrder: seq<Key>
    var epochID: string
    var epochName: string
    ghost var sent: seq<Sent>

    ghost function View(): Routes
      reads this
    {
      Routes(active, retired, completed, completedOrder, epochID, epochName, sent)
    }

    ghost predicate Valid()
      reads this
    {
      Inv(View())
    }

    constructor ()
      ensures Valid() && View() == Start()
    {
      active, retired, completed, completedOrder, epochID, epochName, sent := {}, {}, {}, [], "", "", [];
    }

    method EndsEpoch()
      modifies this`epochID, this`epochName, this`sent
      ensures View() == EndEpoch(old(View()))
    {
      sent := sent + [Finish(epochID, epochName)];
      epochID, epochName := "", "";
    }

    method CutsOver()
      requires Valid()
      modifies this
      ensures Valid() && View() == Cutover(old(View()))
    {
      CutoverKeeps(View());
      if epochID != "" && active != {} {
        retired := retired + active;
        active := {};
        EndsEpoch();
      }
    }

    method RecordsCompleted(k: Key)
      modifies this`completed, this`completedOrder
      ensures View() == RecordCompleted(old(View()), k)
    {
      if k in completed {
        return;
      }
      if |completedOrder| == MAX_COMPLETED {
        completed := completed - {completedOrder[0]};
        completedOrder := completedOrder[1..];
      }
      completedOrder := completedOrder + [k];
      completed := completed + {k};
    }

    method Consumes(e: Event) returns (o: Outcome)
      requires Valid() && (e.Boundary? && e.key.Some? ==> e.streamID != "")
      modifies this
      ensures Valid() && Result(View(), o) == Consume(old(View()), e)
    {
      ConsumeKeeps(View(), e);
      if e.NotAudio? {
        return Emitted;
      }
      if e.key.None? {
        return Refused;
      }
      var k := e.key.value;
      if e.begins {
        if k in active {
          return Refused;
        }
        active := active + {k};
        if |active| != 1 {
          return Suppressed;
        }
        epochID, epochName := e.streamID, e.name;
        sent := sent + [Begin(epochID, epochName)];
        return Emitted;
      }
      if k !in active {
        if k in retired {
          retired := retired - {k};
          RecordsCompleted(k);
          return Suppressed;
        }
        return if k in completed && e.controlError then Suppressed else Refused;
      }
      active := active - {k};
      RecordsCompleted(k);
      if active != {} {
        return Suppressed;
      }
      EndsEpoch();
      return Emitted;
    }

    method EndsActive(streamID: string) returns (removed: bool, ghost order: seq<Key>)
      modifies this`active, this`completed, this`completedOrder
      ensures Enumerates(order, Of(old(active), streamID)) && removed == (Of(old(active), streamID) != {})
      ensures View() == Complete(old(View()), order).(active := old(active) - Of(old(active), streamID))
    {
      ghost var s := View();
      var keys := Enumerate(Of(active, streamID));
      for j := 0 to |keys|
        invariant View() == Complete(s, keys[..j]).(active := s.active - set k | k in keys[..j])
      {
        CompleteGrows(s, keys[..j], keys[j]);
        assert keys[..j + 1] == keys[..j] + [keys[j]];
        EndsRoute(keys[j]);
      }
      assert keys[..|keys|] == keys;
      order, removed := keys, keys != [];
    }

    method EndsRoute(k: Key)
      modifies this`active, this`completed, this`completedOrder
      ensures View() == RecordCompleted(old(View()), k).(active := old(active) - {k})
    {
      active := active - {k};
      RecordsCompleted(k);
    }

    method EndsRoutes(streamID: string) returns (ghost order: seq<Key>)
      requires Valid()
      modifies this
      ensures Enumerates(order, Of(old(active), streamID))
      ensures Valid() && View() == RouteEnd(old(View()), streamID, order)
    {
      ghost var s := View();
      var removed;
      removed, order := EndsActive(streamID);
      retired := retired - Of(retired, streamID);
      CompleteElsewhere(s, s.(active := active, retired := retired), order);
      if removed && active == {} {
        EndsEpoch();
      }
      RouteEndKeeps(s, streamID, order);
    }

    /** The output may end exactly when every epoch that was handed out has been ended. */
    method Closes() returns (ok: bool)
      requires Valid()
      ensures ok ==> Alternates(sent) && |sent| % 2 == 0
      ensures !ok ==> |sent| % 2 == 1 && sent[|sent| - 1] == Begin(epochID, epochName)
    {
      ok := active == {};
    }

    method Aborts()
      requires Valid()
      modifies this
      ensures Valid() && active == {} && View() == Abort(old(View()))
    {
      AbortKeeps(View());
      if active != {} && epochID != "" {
        active := {};
        EndsEpoch();
      }
    }
  }

  lemma EnumeratesGrows(order: seq<Key>, ks: set<Key>, k: Key)
    requires Enumerates(order, ks) && k !in ks
    ensures Enumerates(order + [k], ks + {k})
  {
  }

  lemma CompleteGrows(s: Routes, order: seq<Key>, k: Key)
    ensures Complete(s, order + [k]) == RecordCompleted(Complete(s, order), k)
  {
    assert (order + [k])[..|order + [k]| - 1] == order;
  }
}
