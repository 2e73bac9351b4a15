/** What each key of the Manager holds, told from the events: its connection, its edge
    transports, its role, its fence and its reservation (pkgs/gizclaw/peer_manager.go). */
module PeerConnections {
  import opened Options
  import opened Collections
  import opened PeerManagers

  function ConnOf(s: State, k: string): (c: Option<Conn>) { if k in s.peers then s.peers[k].conn else None }

  function EdgesOf(s: State, k: string): (cs: set<Conn>) { if k in s.peers then s.peers[k].edges else {} }

  function RoleOf(s: State, k: string): (r: Role) { if k in s.peers then s.peers[k].role else NoRole }

  predicate Deleting(s: State, k: string) { k in s.peers && s.peers[k].deleting }

  function ReservationOf(s: State, k: string): (c: Option<Conn>) { if k in s.peers then s.peers[k].activating else None }

  /** The attempt of the event is on key `k` and its reservation stands. */
  predicate OnReserved(s: State, i: nat, k: string) { i in s.attempts && s.attempts[i].key == k && Reserved(s, s.attempts[i]) }

  /** The deletion of the event is on key `k`, whose entry is the one it fenced. */
  predicate OnFenced(s: State, d: nat, k: string) {
    d in s.deletions && s.deletions[d].key == k && Deleting(s, k) && s.peers[k].id == s.deletions[d].entry
  }

  // --------------------------------------------------------------------------- connections

  /** The connection that the event makes that of `k`: a client that is set up, an activation
      that is published, a first edge transport, or the transport that takes over. */
  predicate Puts(s: State, e: Event, k: string, c: Conn) {
    match e
    case SetsUp(key, conn) => key == k && conn == c
    case Publishes(i, _) => OnReserved(s, i, k) && !Deleting(s, k) && s.attempts[i].conn == c
    case EdgesUp(key, conn) => key == k && conn == c && ConnOf(s, k).None? && !Deleting(s, k)
    case EdgesDown(key, conn, next) => key == k && ConnOf(s, k) == Some(conn) && next == Some(c)
    case _ => false
  }

  /** The event takes connection `c` away from `k`: it goes down or is retired itself, or `k` is
      detached, forced down or deleted. */
  predicate Drops(s: State, e: Event, k: string, c: Conn) {
    match e
    case GoesDown(key, conn) => key == k && conn == c
    case Retires(key, conn) => key == k && conn == c
    case EdgesDown(key, conn, _) => key == k && conn == c
    case Detaches(key) => key == k
    case Forces(key) => key == k
    case EndsDelete(d, ok) => ok && OnFenced(s, d, k)
    case _ => false
  }

  /** The event leaves connection `c` to `k`. */
  ghost predicate Leaves(s: State, e: Event, k: string, c: Conn) {
    !Drops(s, e, k, c) && forall d :: !Puts(s, e, k, d)
  }

  predicate Rises(e: Event) { e.EdgesUp? || e.EdgesDown? || e.SetsUp? || e.Reserves? || e.Publishes? }

  lemma RiseConn(s: State, e: Event, k: string, c: Conn)
    requires Possible(s, e) && Rises(e)
    ensures Puts(s, e, k, c) ==> ConnOf(Step(s, e), k) == Some(c)
    ensures ConnOf(Step(s, e), k) == Some(c) ==> Puts(s, e, k, c) || (ConnOf(s, k) == Some(c) && Leaves(s, e, k, c))
    ensures ConnOf(s, k) == Some(c) && Leaves(s, e, k, c) ==> ConnOf(Step(s, e), k) == Some(c)
  {
    if e.SetsUp? && e.key == k {
      assert Puts(s, e, k, e.conn);
    } else if e.Publishes? && OnReserved(s, e.attempt, k) && !Deleting(s, k) {
      assert Puts(s, e, k, s.attempts[e.attempt].conn);
    } else if e.EdgesUp? && e.key == k && ConnOf(s, k).None? && !Deleting(s, k) {
      assert Puts(s, e, k, e.conn);
    } else if e.EdgesDown? && e.key == k && ConnOf(s, k) == Some(e.conn) && e.next.Some? {
      assert Puts(s, e, k, e.next.value);
    }
  }

  lemma FallConn(s: State, e: Event, k: string, c: Conn)
    requires Possible(s, e) && !Rises(e)
    ensures ConnOf(Step(s, e), k) == Some(c) <==> ConnOf(s, k) == Some(c) && !Drops(s, e, k, c)
  {
  }

  /** After a section the connection of `k` is the one that it put there, or the one that was
      there and that it left. */
  lemma StepConn(s: State, e: Event, k: string, c: Conn)
    requires Possible(s, e)
    ensures ConnOf(Step(s, e), k) == Some(c) <==> Puts(s, e, k, c) || (ConnOf(s, k) == Some(c) && Leaves(s, e, k, c))
  {
    if Rises(e) {
      RiseConn(s, e, k, c);
    } else {
      FallConn(s, e, k, c);
    }
  }

  /** The states that a run passes through. */
  ghost predicate Trace(es: seq<Event>, ss: seq<State>) {
    && |ss| == |es| + 1 && ss[0] == Start()
    && forall n :: 0 <= n < |es| ==> Steps(ss[n], es[n], ss[n + 1])
  }

  /** The sections that put connection `c` up for `k`. */
  ghost function Ups(es: seq<Event>, ss: seq<State>, k: string, c: Conn): int -> bool
    requires |ss| == |es| + 1
  {
    n => 0 <= n < |es| && Puts(ss[n], es[n], k, c)
  }

  /** The sections that neither replace it nor take it away. */
  ghost function Leaving(es: seq<Event>, ss: seq<State>, k: string, c: Conn): int -> bool
    requires |ss| == |es| + 1
  {
    n => 0 <= n < |es| && Leaves(ss[n], es[n], k, c)
  }

  /** In every run: the connection of a key is exactly the one that was put up last and has not
      gone down, been retired, detached, forced down or deleted since. */
  lemma {:induction false} ConnectionIsTold(es: seq<Event>, ss: seq<State>, n: nat, k: string, c: Conn)
    requires Trace(es, ss) && n <= |es|
    ensures ConnOf(ss[n], k) == Some(c) <==> Ever(Ups(es, ss, k, c), Leaving(es, ss, k, c), n)
  {
    if n > 0 {
      ConnectionIsTold(es, ss, n - 1, k, c);
      SinceGrows(Ups(es, ss, k, c), Leaving(es, ss, k, c), n - 1);
      assert Steps(ss[n - 1], es[n - 1], ss[n]);
      StepConn(ss[n - 1], es[n - 1], k, c);
    }
  }

  /** A connection that was replaced, or was never that of the key, can go down or be retired
      without any effect. */
  lemma LateDownIsNothing(s: State, k: string, c: Conn)
    ensures ConnOf(s, k) != Some(c) ==> PeerDown(s, k, c) == s && Retire(s, k, c) == s
  {
  }

  /** When the key's own connection goes down, the entry loses it and is gone exactly when it is
      neither being deleted nor reserved; when it is retired, the entry is gone. */
  lemma OwnDownDrops(s: State, k: string, c: Conn)
    requires ConnOf(s, k) == Some(c)
    ensures var s' := PeerDown(s, k, c);
      && ConnOf(s', k).None? && (k in s'.peers <==> Deleting(s, k) || ReservationOf(s, k).Some?)
      && (k in s'.peers ==> s'.peers[k] == s.peers[k].(conn := None, counted := false))
      && forall j :: j != k ==> (j in s'.peers <==> j in s.peers) && (j in s.peers ==> s'.peers[j] == s.peers[j])
    ensures var s' := Retire(s, k, c); s'.peers == s.peers - {k}
  {
  }

  // ------------------------------------------------------------------------------- entries

  /** The entry of `k` goes with the section. */
  predicate Removes(s: State, e: Event, k: string) {
    && k in s.peers
    && match e
       case Detaches(key) => key == k
       case Retires(key, c) => key == k && ConnOf(s, k) == Some(c)
       case GoesDown(key, c) => key == k && ConnOf(s, k) == Some(c) && !Deleting(s, k) && ReservationOf(s, k).None?
       case Forces(key) => key == k && !Deleting(s, k) && ReservationOf(s, k).None?
       case EndsDelete(d, ok) => OnFenced(s, d, k) && (ok || (ConnOf(s, k).None? && ReservationOf(s, k).None?))
       case GivesUp(i) => OnReserved(s, i, k) && ConnOf(s, k).None?
       case EdgesDown(key, c, _) =>
         key == k && EdgesOf(s, k) - {c} == {} && ReservationOf(s, k).None? && (ConnOf(s, k).None? || ConnOf(s, k) == Some(c))
       case _ => false
  }

  /** A section makes the entry of its key, if there is none, only to bring a connection up or to
      reserve it. */
  lemma StepEntry(s: State, e: Event, k: string)
    requires Possible(s, e)
    ensures k in Step(s, e).peers <==>
      if k in s.peers then !Removes(s, e, k) else (e.EdgesUp? || e.SetsUp? || e.Reserves?) && e.key == k
  {
    if e.EdgesUp? || e.EdgesDown? || e.SetsUp? || e.Reserves? {
      UpEntry(s, e, k);
    }
  }

  lemma UpEntry(s: State, e: Event, k: string)
    requires Possible(s, e) && (e.EdgesUp? || e.EdgesDown? || e.SetsUp? || e.Reserves?)
    ensures k in Step(s, e).peers <==>
      if k in s.peers then !Removes(s, e, k) else (e.EdgesUp? || e.SetsUp? || e.Reserves?) && e.key == k
  {
  }

  /** Every entry has a connection or a reservation or is being deleted. */
  ghost predicate Needed(s: State) {
    forall k :: k in s.peers ==> s.peers[k].conn.Some? || s.peers[k].activating.Some? || s.peers[k].deleting
  }

  lemma UpNeeded(s: State, e: Event)
    requires Needed(s) && Possible(s, e) && (e.EdgesUp? || e.EdgesDown? || e.SetsUp? || e.Reserves?)
    ensures Needed(Step(s, e))
  {
  }

  lemma StepNeeded(s: State, e: Event)
    requires Needed(s) && Possible(s, e)
    ensures Needed(Step(s, e))
  {
    if e.EdgesUp? || e.EdgesDown? || e.SetsUp? || e.Reserves? {
      UpNeeded(s, e);
    }
  }

  /** No entry is kept for nothing, in any reachable state. */
  lemma {:induction false} RunNeeded(es: seq<Event>, s: State)
    requires Runs(es, s)
    ensures Needed(s)
  {
    if es != [] {
      var m :| Runs(es[..|es| - 1], m) && Steps(m, es[|es| - 1], s);
      RunNeeded(es[..|es| - 1], m);
      StepNeeded(m, es[|es| - 1]);
    }
  }

  // ------------------------------------------------------------- role, fence and reservation

  /** The role is that of the last client, edge transport or published activation. */
  lemma StepRole(s: State, e: Event, k: string)
    requires Possible(s, e) && k in Step(s, e).peers
    ensures RoleOf(Step(s, e), k) ==
      if e.SetsUp? && e.key == k then Client
      else if e.EdgesUp? && e.key == k && !Deleting(s, k) then EdgeNode
      else if e.Publishes? && OnReserved(s, e.attempt, k) && !Deleting(s, k) then e.role
      else RoleOf(s, k)
  {
    if e.EdgesUp? || e.EdgesDown? || e.SetsUp? || e.Reserves? {
      UpRole(s, e, k);
    }
  }

  lemma UpRole(s: State, e: Event, k: string)
    requires Possible(s, e) && k in Step(s, e).peers && (e.EdgesUp? || e.EdgesDown? || e.SetsUp? || e.Reserves?)
    ensures RoleOf(Step(s, e), k) ==
      if e.SetsUp? && e.key == k then Client
      else if e.EdgesUp? && e.key == k && !Deleting(s, k) then EdgeNode
      else RoleOf(s, k)
  {
  }

  /** An entry is fenced by a deletion of its connection or by a quiesce, and the fence is lifted
      by a rollback of a deletion of that entry. */
  lemma StepFence(s: State, e: Event, k: string)
    requires Possible(s, e) && k in Step(s, e).peers
    ensures Deleting(Step(s, e), k) <==>
      || (e.BeginsDelete? && e.key == k && ConnOf(s, k) == Some(e.conn))
      || (e.Quiesces? && e.key == k)
      || (Deleting(s, k) && !(e.EndsDelete? && OnFenced(s, e.deletion, k)))
  {
    if e.EdgesUp? || e.EdgesDown? || e.SetsUp? || e.Reserves? {
      UpFence(s, e, k);
    }
  }

  lemma UpFence(s: State, e: Event, k: string)
    requires Possible(s, e) && k in Step(s, e).peers && (e.EdgesUp? || e.EdgesDown? || e.SetsUp? || e.Reserves?)
    ensures Deleting(Step(s, e), k) <==> Deleting(s, k)
  {
  }

  /** A reservation is made when there is none and no fence; it ends with its attempt, with a
      quiesce and when a client is set up. */
  lemma StepReservation(s: State, e: Event, k: string)
    requires Possible(s, e) && k in Step(s, e).peers
    ensures ReservationOf(Step(s, e), k) ==
      if e.Reserves? && e.key == k && !Deleting(s, k) && ReservationOf(s, k).None? then Some(e.conn)
      else if ((e.SetsUp? || e.Quiesces?) && e.key == k) || ((e.GivesUp? || e.Publishes?) && OnReserved(s, e.attempt, k)) then None
      else ReservationOf(s, k)
  {
    if e.EdgesUp? || e.EdgesDown? || e.SetsUp? || e.Reserves? {
      UpReservation(s, e, k);
    }
  }

  lemma UpReservation(s: State, e: Event, k: string)
    requires Possible(s, e) && k in Step(s, e).peers && (e.EdgesUp? || e.EdgesDown? || e.SetsUp? || e.Reserves?)
    ensures ReservationOf(Step(s, e), k) ==
      if e.Reserves? && e.key == k && !Deleting(s, k) && ReservationOf(s, k).None? then Some(e.conn)
      else if e.SetsUp? && e.key == k then None
      else ReservationOf(s, k)
  {
  }

  // ----------------------------------------------------------------------- edge transports

  /** The event brings transport `c` of `k` up. */
  predicate Joins(s: State, e: Event, k: string, c: Conn) { e == EdgesUp(k, c) && !Deleting(s, k) }

  /** The event leaves transport `c` of `k`. */
  predicate Stays(s: State, e: Event, k: string, c: Conn) {
    !Removes(s, e, k) && !(e.EdgesDown? && e.key == k && e.conn == c)
  }

  lemma StepEdges(s: State, e: Event, k: string, c: Conn)
    requires Possible(s, e)
    ensures c in EdgesOf(Step(s, e), k) <==> Joins(s, e, k, c) || (c in EdgesOf(s, k) && Stays(s, e, k, c))
  {
    if e.EdgesUp? || e.EdgesDown? || e.SetsUp? || e.Reserves? {
      UpEdges(s, e, k, c);
    }
  }

  lemma UpEdges(s: State, e: Event, k: string, c: Conn)
    requires Possible(s, e) && (e.EdgesUp? || e.EdgesDown? || e.SetsUp? || e.Reserves?)
    ensures c in EdgesOf(Step(s, e), k) <==> Joins(s, e, k, c) || (c in EdgesOf(s, k) && Stays(s, e, k, c))
  {
  }

  ghost function Joining(es: seq<Event>, ss: seq<State>, k: string, c: Conn): int -> bool
    requires |ss| == |es| + 1
  {
    n => 0 <= n < |es| && Joins(ss[n], es[n], k, c)
  }

  ghost function Staying(es: seq<Event>, ss: seq<State>, k: string, c: Conn): int -> bool
    requires |ss| == |es| + 1
  {
    n => 0 <= n < |es| && Stays(ss[n], es[n], k, c)
  }

  /** In every run: the edge transports of a key are exactly those that were brought up, while it
      was not being deleted, and have not gone down nor lost their entry since. */
  lemma {:induction false} TransportsAreTold(es: seq<Event>, ss: seq<State>, n: nat, k: string, c: Conn)
    requires Trace(es, ss) && n <= |es|
    ensures c in EdgesOf(ss[n], k) <==> Ever(Joining(es, ss, k, c), Staying(es, ss, k, c), n)
  {
    if n > 0 {
      TransportsAreTold(es, ss, n - 1, k, c);
      SinceGrows(Joining(es, ss, k, c), Staying(es, ss, k, c), n - 1);
      assert Steps(ss[n - 1], es[n - 1], ss[n]);
      StepEdges(ss[n - 1], es[n - 1], k, c);
    }
  }
}
