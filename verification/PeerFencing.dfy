/** Activation fencing: what a reservation protects against while activatePeer works outside
    the lock (pkgs/gizclaw/peer_manager.go). */
module PeerFencing {
  import opened Options
  import opened PeerManagers

  /** The reservation that attempt `i` made stands. */
  predicate Holds(s: State, i: nat) {
    i in s.attempts && Reserved(s, s.attempts[i]) && s.peers[s.attempts[i].key].holder == i
  }

  /** Attempt `i` is under way but its reservation was taken away. */
  predicate Revoked(s: State, i: nat) { i in s.attempts && !Holds(s, i) }

  /** Entries are different objects, and older than the next one. */
  ghost predicate Identified(s: State) {
    && (forall k :: k in s.peers ==> s.peers[k].id < s.nextEntry)
    && (forall k, l :: k in s.peers && l in s.peers && s.peers[k].id == s.peers[l].id ==> k == l)
    && (forall i :: i in s.attempts ==> i < s.nextAttempt && s.attempts[i].entry < s.nextEntry)
  }

  /** Each reservation belongs to the one attempt that made it. */
  ghost predicate Owned(s: State) {
    forall k :: k in s.peers && s.peers[k].activating.Some? ==>
      s.peers[k].holder in s.attempts
      && s.attempts[s.peers[k].holder] == Attempt(k, s.peers[k].id, s.peers[k].activating.value)
  }

  ghost predicate Fenced(s: State) { Identified(s) && Owned(s) }

  /** The key whose entry a section works on. */
  ghost function KeyOf(s: State, e: Event): string
    requires Possible(s, e)
  {
    match e
    case GivesUp(i) => s.attempts[i].key
    case Publishes(i, _) => s.attempts[i].key
    case EndsDelete(d, _) => s.deletions[d].key
    case _ => e.key
  }

  /** A section works on one entry. It may end it, and it makes one only where there was none;
      it leaves the reservation, clears it, or makes one for a new attempt. */
  ghost predicate Moves(s: State, s': State, k: string) {
    && (forall j :: j != k ==> (j in s'.peers <==> j in s.peers) && (j in s.peers ==> s'.peers[j] == s.peers[j]))
    && s.nextEntry <= s'.nextEntry
    && (k in s'.peers ==>
          if k in s.peers then s'.peers[k].id == s.peers[k].id
          else s'.peers[k].id == s.nextEntry < s'.nextEntry)
    && (k in s'.peers && s'.peers[k].activating.Some? ==>
          || (k in s.peers && s'.peers[k].activating == s.peers[k].activating && s'.peers[k].holder == s.peers[k].holder)
          || s'.peers[k].holder == s.nextAttempt < s'.nextAttempt)
  }

  lemma UpMoves(s: State, e: Event)
    requires Possible(s, e) && (e.EdgesUp? || e.EdgesDown? || e.SetsUp? || e.Reserves?)
    ensures Moves(s, Step(s, e), KeyOf(s, e))
  {
  }

  lemma EndMoves(s: State, e: Event)
    requires Possible(s, e) && (e.GivesUp? || e.Publishes? || e.EndsDelete?)
    ensures Moves(s, Step(s, e), KeyOf(s, e))
  {
  }

  lemma StepMoves(s: State, e: Event)
    requires Possible(s, e)
    ensures Moves(s, Step(s, e), KeyOf(s, e))
  {
    if e.EdgesUp? || e.EdgesDown? || e.SetsUp? || e.Reserves? {
      UpMoves(s, e);
    } else if e.GivesUp? || e.Publishes? || e.EndsDelete? {
      EndMoves(s, e);
    }
  }

  /** A section ends the attempt it belongs to, or starts the next one. */
  ghost predicate Attempts(s: State, e: Event, s': State) {
    && s.nextAttempt <= s'.nextAttempt && (!e.Reserves? ==> s'.nextAttempt == s.nextAttempt)
    && (forall i :: i in s'.attempts && i != s.nextAttempt ==> i in s.attempts && s'.attempts[i] == s.attempts[i])
    && (s.nextAttempt in s'.attempts && s.nextAttempt !in s.attempts ==>
          s.nextAttempt < s'.nextAttempt && e.Reserves? && e.key in s'.peers
          && s'.attempts[s.nextAttempt] == Attempt(e.key, s'.peers[e.key].id, e.conn))
  }

  lemma ReserveAttempts(s: State, k: string, c: Conn)
    ensures Attempts(s, Reserves(k, c), Reserve(s, k, c))
  {
  }

  /** Every other section leaves the attempts, or takes its own away. */
  lemma OtherAttempts(s: State, e: Event)
    requires Possible(s, e) && !e.Reserves?
    ensures var s' := Step(s, e);
      s'.nextAttempt == s.nextAttempt
      && s'.attempts == if e.GivesUp? || e.Publishes? then s.attempts - {e.attempt} else s.attempts
  {
  }

  lemma StepAttempts(s: State, e: Event)
    requires Possible(s, e)
    ensures Attempts(s, e, Step(s, e))
  {
    if e.Reserves? {
      ReserveAttempts(s, e.key, e.conn);
    } else {
      OtherAttempts(s, e);
    }
  }

  lemma StepIdentified(s: State, e: Event)
    requires Identified(s) && Possible(s, e)
    ensures Identified(Step(s, e))
  {
    StepMoves(s, e);
    StepAttempts(s, e);
    MovesIdentified(s, Step(s, e), KeyOf(s, e));
  }

  lemma MovesIdentified(s: State, s': State, k: string)
    requires Identified(s) && Moves(s, s', k) && s.nextAttempt <= s'.nextAttempt
    requires forall i :: i in s'.attempts && i != s.nextAttempt ==> i in s.attempts && s'.attempts[i] == s.attempts[i]
    requires s.nextAttempt in s'.attempts ==>
      s.nextAttempt < s'.nextAttempt && exists j :: j in s'.peers && s'.attempts[s.nextAttempt].entry == s'.peers[j].id
    ensures Identified(s')
  {
  }

  /** A section that ends or starts no attempt leaves each entry's reservation or clears it. */
  lemma OthersOwned(s: State, e: Event)
    requires Owned(s) && Possible(s, e) && !e.Reserves? && !e.GivesUp? && !e.Publishes?
    ensures Owned(Step(s, e))
  {
    StepMoves(s, e);
    OtherAttempts(s, e);
    MovesOwned(s, Step(s, e), KeyOf(s, e));
  }

  lemma MovesOwned(s: State, s': State, k: string)
    requires Owned(s) && Moves(s, s', k) && s'.attempts == s.attempts && s'.nextAttempt == s.nextAttempt
    ensures Owned(s')
  {
  }

  lemma EndsOwned(s: State, i: nat, s': State)
    requires Fenced(s) && i in s.attempts && s'.attempts == s.attempts - {i}
    requires forall k :: k in s'.peers ==> k in s.peers && s'.peers[k].id == s.peers[k].id
    requires forall k :: k in s'.peers && s'.peers[k].activating.Some? ==>
      && s'.peers[k].activating == s.peers[k].activating && s'.peers[k].holder == s.peers[k].holder
      && !(k == s.attempts[i].key && Reserved(s, s.attempts[i]))
    ensures Owned(s')
  {
  }

  lemma GiveUpOwned(s: State, i: nat)
    requires Fenced(s) && i in s.attempts
    ensures Owned(GiveUp(s, i))
  {
    EndsOwned(s, i, GiveUp(s, i));
  }

  lemma PublishOwned(s: State, i: nat, role: Role)
    requires Fenced(s) && i in s.attempts
    ensures Owned(Publish(s, i, role))
  {
    EndsOwned(s, i, Publish(s, i, role));
  }

  lemma StepFenced(s: State, e: Event)
    requires Fenced(s) && Possible(s, e)
    ensures Fenced(Step(s, e))
  {
    StepIdentified(s, e);
    match e
    case GivesUp(i) => GiveUpOwned(s, i);
    case Publishes(i, role) => PublishOwned(s, i, role);
    case Reserves(k, c) => ReserveOwned(s, k, c);
    case _ => OthersOwned(s, e);
  }

  lemma ReserveOwned(s: State, k: string, c: Conn)
    requires Fenced(s)
    ensures Owned(Reserve(s, k, c))
  {
  }

  lemma {:induction false} RunFenced(es: seq<Event>, s: State)
    requires Runs(es, s)
    ensures Fenced(s)
  {
    if es != [] {
      var m :| Runs(es[..|es| - 1], m) && Steps(m, es[|es| - 1], s);
      RunFenced(es[..|es| - 1], m);
      StepFenced(m, es[|es| - 1]);
    }
  }

  /** An attempt passes the check before publishing exactly when the standing reservation is
      its own, or that of another attempt on the same entry for the same connection. */
  lemma PassesIff(s: State, i: nat)
    requires Fenced(s) && i in s.attempts
    ensures Reserved(s, s.attempts[i]) <==> exists h :: Holds(s, h) && s.attempts[h] == s.attempts[i]
  {
    if Reserved(s, s.attempts[i]) {
      assert Holds(s, s.peers[s.attempts[i].key].holder);
    }
  }

  /** What takes a reservation away never gives it back. */
  lemma RevokedStays(s: State, e: Event, i: nat)
    requires Fenced(s) && Possible(s, e) && Revoked(s, i)
    ensures i !in Step(s, e).attempts || Revoked(Step(s, e), i)
  {
    StepMoves(s, e);
    StepAttempts(s, e);
  }

  /** A reservation that stands publishes, unless the entry is being deleted: the key gets
      the attempt's connection and role, and the reservation is gone. */
  lemma HolderPublishes(s: State, i: nat, role: Role)
    requires Holds(s, i) && !s.peers[s.attempts[i].key].deleting
    ensures var a, s' := s.attempts[i], Publish(s, i, role);
      && a.key in s'.peers && s'.peers[a.key].conn == Some(a.conn) && s'.peers[a.key].role == role
      && s'.peers[a.key].activating.None? && s'.peers[a.key].id == a.entry && i !in s'.attempts
      && forall k :: k != a.key && k in s.peers ==> k in s'.peers && s'.peers[k] == s.peers[k]
  {
  }

  /** Rolling a deletion back, whatever happened since it began: if its entry is still there
      and fenced, the fence is lifted and nothing else of it changes, unless nobody needs the
      entry any more; other entries stay as they are. */
  lemma RollbackLifts(s: State, d: nat)
    requires Exact(s) && d in s.deletions && s.deletions[d].key in s.peers
    requires s.peers[s.deletions[d].key].id == s.deletions[d].entry && s.peers[s.deletions[d].key].deleting
    ensures var k, s' := s.deletions[d].key, EndDelete(s, d, false);
      var e := s.peers[k];
      && Exact(s') && s'.deletions == s.deletions - {d}
      && (if e.conn.Some? || e.activating.Some?
          then k in s'.peers && s'.peers[k] == e.(deleting := false, counted := e.conn.Some? && e.role == Client)
          else k !in s'.peers)
      && forall j :: j != k ==> (j in s'.peers <==> j in s.peers) && (j in s.peers ==> s'.peers[j] == s.peers[j])
  {
    DeleteExact(s, d, false);
  }

  /** A deletion that fails at once leaves everything as it was; one that succeeds takes the
      entry away. */
  lemma DeletionUndone(s: State, k: string, c: Conn)
    requires Exact(s) && k in s.peers && s.peers[k].conn == Some(c) && !s.peers[k].deleting
    requires s.nextDeletion !in s.deletions
    ensures var b := BeginDelete(s, k, c);
      && b.deletions.Keys == s.deletions.Keys + {s.nextDeletion}
      && EndDelete(b, s.nextDeletion, false) == s.(nextDeletion := s.nextDeletion + 1)
      && EndDelete(b, s.nextDeletion, true).peers == s.peers - {k}
  {
    var b, d := BeginDelete(s, k, c), s.nextDeletion;
    var back := EndDelete(b, d, false);
    assert back.deletions == s.deletions;
    assert back.peers == s.peers by {
      assert back.peers.Keys == s.peers.Keys;
      assert back.peers[k] == s.peers[k];
    }
    assert EndDelete(b, d, true).peers == s.peers - {k};
  }

  /** Detaching, quiescing, setting the peer up and completing a deletion revoke every
      reservation of the key. */
  lemma Revokes(s: State, e: Event, k: string, i: nat)
    requires Fenced(s) && Possible(s, e) && i in s.attempts && s.attempts[i].key == k
    requires
      || e == Detaches(k) || e == Quiesces(k) || (e.SetsUp? && e.key == k)
      || (e.EndsDelete? && e.ok && s.deletions[e.deletion].key == k && k in s.peers
          && s.peers[k].id == s.deletions[e.deletion].entry && s.peers[k].deleting)
    ensures Revoked(Step(s, e), i)
  {
  }

  // -------------------------------------------------------------------- distinct connections

  /** No two attempts under way are for the same connection. */
  ghost predicate Apart(s: State) {
    forall i, j :: i in s.attempts && j in s.attempts && s.attempts[i].conn == s.attempts[j].conn ==> i == j
  }

  /** A connection is activated once at a time. */
  ghost predicate Fresh(s: State, e: Event) {
    e.Reserves? ==> forall i :: i in s.attempts ==> s.attempts[i].conn != e.conn
  }

  ghost predicate Leads(s: State, es: seq<Event>, s': State) {
    if es == [] then s == s'
    else
      var pre, e := es[..|es| - 1], es[|es| - 1];
      exists m :: Leads(s, pre, m) && Fresh(m, e) && Steps(m, e, s')
  }

  /** At most one attempt on a key passes the check before publishing. */
  lemma OnePasses(s: State, i: nat, j: nat)
    requires Fenced(s) && Apart(s) && i in s.attempts && j in s.attempts && s.attempts[i].key == s.attempts[j].key
    requires Reserved(s, s.attempts[i]) && Reserved(s, s.attempts[j])
    ensures i == j && Holds(s, i)
  {
    PassesIff(s, i);
  }

  lemma StepApart(s: State, e: Event)
    requires Fenced(s) && Apart(s) && Possible(s, e) && Fresh(s, e)
    ensures Apart(Step(s, e))
  {
    StepAttempts(s, e);
  }

  /** With each connection activated once at a time: a revoked reservation never publishes,
      whatever happens in between. When its attempt gets to the publishing section, nothing
      but the attempt itself goes away, even if the key has a new entry or a new reservation. */
  lemma {:induction false} RevokedNeverPublishes(s: State, es: seq<Event>, s': State, i: nat, role: Role)
    requires Fenced(s) && Apart(s) && Revoked(s, i) && Leads(s, es, s')
    ensures Fenced(s') && Apart(s') && (i !in s'.attempts || Revoked(s', i)) && i < s'.nextAttempt
    ensures i in s'.attempts ==> Publish(s', i, role) == s'.(attempts := s'.attempts - {i})
  {
    if es != [] {
      var pre, e := es[..|es| - 1], es[|es| - 1];
      var m :| Leads(s, pre, m) && Fresh(m, e) && Steps(m, e, s');
      RevokedNeverPublishes(s, pre, m, i, role);
      StepFenced(m, e);
      StepApart(m, e);
      if i in m.attempts {
        RevokedStays(m, e, i);
      } else {
        GoneStays(m, e, i);
      }
      StepAttempts(m, e);
    }
    if i in s'.attempts {
      PassesIff(s', i);
    }
  }

  /** When each connection is activated once at a time, every reachable state is fenced and no
      two attempts are for the same connection. */
  lemma {:induction false} FreshRunApart(es: seq<Event>, s: State)
    requires Leads(Start(), es, s)
    ensures Fenced(s) && Apart(s)
  {
    if es != [] {
      var pre, e := es[..|es| - 1], es[|es| - 1];
      var m :| Leads(Start(), pre, m) && Fresh(m, e) && Steps(m, e, s);
      FreshRunApart(pre, m);
      StepFenced(m, e);
      StepApart(m, e);
    }
  }

  lemma GoneStays(s: State, e: Event, i: nat)
    requires Possible(s, e) && i !in s.attempts && i < s.nextAttempt
    ensures i !in Step(s, e).attempts && i < Step(s, e).nextAttempt
  {
    StepAttempts(s, e);
  }

  /** Without that, a revoked attempt can publish: here attempt 0 is revoked when the peer is
      set up, attempt 1 reserves the same entry for the same connection, and attempt 0
      publishes it. */
  lemma RevokedPublishes(k: string, c: Conn, other: Conn)
    requires c != other
    ensures var s := Reserve(SetPeerUp(Reserve(Start(), k, c), k, other), k, c);
      Revoked(s, 0) && Holds(s, 1) && s.peers[k].conn == Some(other) && Publish(s, 0, Client).peers[k].conn == Some(c)
  {
  }
}
