/** The Manager (pkgs/gizclaw/peer_manager.go) with its peers map and device counter: each
    method is one critical section and does what the state machine says. */
module Managers {
  import opened Options
  import opened PeerManagers
  import opened PeerFencing
  import opened PeerConnections

  class Manager {
    var peers: map<string, Entry>
    var deviceCount: int
    /** The identity of the next entry object. */
    var nextEntry: nat
    /** The serial number of the next activation, which marks its reservation. */
    var nextAttempt: nat
    ghost var attempts: map<nat, Attempt>
    ghost var deletions: map<nat, Attempt>
    ghost var nextDeletion: nat

    ghost function View(): State
      reads this
    {
      State(peers, deviceCount, nextEntry, attempts, nextAttempt, deletions, nextDeletion)
    }

    ghost predicate Valid()
      reads this
    {
      Exact(View()) && Fenced(View())
    }

    constructor ()
      ensures Valid() && View() == Start()
    {
      peers, deviceCount, nextEntry := map[], 0, 0;
      attempts, nextAttempt, deletions, nextDeletion := map[], 0, map[], 0;
    }

    /** Stores the changed entry of `k` and runs updateDeviceCountLocked on it. */
    method UpdatePeer(k: string, e: Entry)
      modifies this`peers, this`deviceCount
      ensures View() == Settle(old(View()), k, e)
    {
      var online := e.conn.Some? && !e.deleting && e.role == Client;
      if e.counted != online {
        deviceCount := if online then deviceCount + 1 else deviceCount - 1;
      }
      peers := peers[k := e.(counted := online)];
    }

    /** removePeerLocked */
    method RemovePeer(k: string)
      modifies this`peers, this`deviceCount
      ensures View() == Remove(old(View()), k)
    {
      if k in peers && peers[k].counted {
        deviceCount := deviceCount - 1;
      }
      peers := peers - {k};
    }

    method EnsurePeer(k: string)
      modifies this`peers, this`nextEntry
      ensures View() == Ensure(old(View()), k)
    {
      if k !in peers {
        peers := peers[k := Entry(nextEntry, None, NoRole, false, {}, None, 0, false)];
        nextEntry := nextEntry + 1;
      }
    }

    method ActivateEdgeTransport(k: string, c: Conn) returns (ok: bool)
      requires Valid()
      modifies this
      ensures Valid() && View() == EdgeUp(old(View()), k, c)
      ensures ok <==> !(k in old(peers) && old(peers)[k].deleting)
    {
      StepExact(View(), EdgesUp(k, c));
      StepFenced(View(), EdgesUp(k, c));
      EnsurePeer(k);
      var e := peers[k];
      if e.deleting {
        return false;
      }
      UpdatePeer(k, e.(edges := e.edges + {c}, role := EdgeNode, conn := if e.conn.None? then Some(c) else e.conn));
      return true;
    }

    /** The count stays exact unless the transport is the only connection of a counted entry
        with an activation pending. */
    method SetEdgeTransportDown(k: string, c: Conn) returns (ghost next: Option<Conn>)
      requires Valid()
      modifies this
      ensures Takes(old(View()), k, c, next) && View() == EdgeDown(old(View()), k, c, next)
      ensures Fenced(View()) && (Exact(View()) <==> !Miscounts(old(View()), k, c))
    {
      next := None;
      if k !in peers {
        return;
      }
      var e := peers[k];
      var edges := e.edges - {c};
      var conn := e.conn;
      if edges != {} {
        var n :| n in edges;
        next := Some(n);
        conn := if conn == Some(c) then Some(n) else conn;
      } else {
        conn := if conn == Some(c) then None else conn;
      }
      EdgeDownExactIff(View(), k, c, next);
      StepFenced(View(), EdgesDown(k, c, next));
      peers := peers[k := e.(edges := edges, conn := conn)];
      if edges == {} && conn.None? && e.activating.None? {
        RemovePeer(k);
      }
    }

    /** Returns the connection that was replaced. */
    method SetPeerUp(k: string, c: Conn) returns (replaced: Option<Conn>)
      requires Valid()
      modifies this
      ensures Valid() && View() == PeerManagers.SetPeerUp(old(View()), k, c)
      ensures replaced == if k in old(peers) && old(peers)[k].conn != Some(c) then old(peers)[k].conn else None
    {
      StepExact(View(), SetsUp(k, c));
      StepFenced(View(), SetsUp(k, c));
      EnsurePeer(k);
      var was := peers[k].conn;
      UpdatePeer(k, peers[k].(conn := Some(c), role := Client, activating := None));
      return if was == Some(c) then None else was;
    }

    /** The first section of activatePeer: the identity of the entry, if it was reserved. */
    method BeginActivation(k: string, c: Conn) returns (entry: Option<nat>, attempt: nat)
      requires Valid()
      modifies this
      ensures Valid() && View() == Reserve(old(View()), k, c) && attempt == old(nextAttempt)
      ensures entry.Some? <==> !(k in old(peers) && (old(peers)[k].deleting || old(peers)[k].activating.Some?))
      ensures entry.Some? ==> Holds(View(), attempt) && attempts[attempt] == Attempt(k, entry.value, c)
    {
      StepExact(View(), Reserves(k, c));
      StepFenced(View(), Reserves(k, c));
      entry, attempt := ReservePeer(k, c);
    }

    method ReservePeer(k: string, c: Conn) returns (entry: Option<nat>, attempt: nat)
      modifies this
      ensures View() == Reserve(old(View()), k, c) && attempt == old(nextAttempt)
      ensures entry.Some? <==> !(k in old(peers) && (old(peers)[k].deleting || old(peers)[k].activating.Some?))
      ensures entry.Some? ==> Holds(View(), attempt) && attempts[attempt] == Attempt(k, entry.value, c)
    {
      attempt := nextAttempt;
      EnsurePeer(k);
      var e := peers[k];
      if e.deleting || e.activating.Some? {
        return None, attempt;
      }
      peers := peers[k := e.(activating := Some(c), holder := attempt)];
      attempts, nextAttempt := attempts[attempt := Attempt(k, e.id, c)], attempt + 1;
      return Some(e.id), attempt;
    }

    /** checkActivatingPeer */
    predicate Activating(k: string, entry: nat, c: Conn)
      reads this
    {
      k in peers && peers[k].id == entry && peers[k].activating == Some(c)
    }

    /** The section that ends a failed activation. */
    method FailActivation(attempt: nat, k: string, entry: nat, c: Conn)
      requires Valid() && attempt in attempts && attempts[attempt] == Attempt(k, entry, c)
      modifies this
      ensures Valid() && View() == GiveUp(old(View()), attempt)
    {
      StepExact(View(), GivesUp(attempt));
      StepFenced(View(), GivesUp(attempt));
      attempts := attempts - {attempt};
      if Activating(k, entry, c) {
        peers := peers[k := peers[k].(activating := None)];
        if peers[k].conn.None? {
          RemovePeer(k);
        }
      }
    }

    /** The section that publishes. It succeeds only under a reservation of the same entry for
        the same connection, and never while the entry is being deleted. */
    method PublishActivation(attempt: nat, k: string, entry: nat, c: Conn, role: Role)
      returns (ok: bool, replaced: Option<Conn>)
      requires Valid() && attempt in attempts && attempts[attempt] == Attempt(k, entry, c)
      modifies this
      ensures Valid() && View() == Publish(old(View()), attempt, role)
      ensures ok <==> (exists h :: Holds(old(View()), h) && old(attempts)[h] == Attempt(k, entry, c)) && !old(peers)[k].deleting
      ensures replaced == if ok then old(peers)[k].conn else None
    {
      StepExact(View(), Publishes(attempt, role));
      StepFenced(View(), Publishes(attempt, role));
      PassesIff(View(), attempt);
      attempts := attempts - {attempt};
      if !Activating(k, entry, c) {
        return false, None;
      }
      var e := peers[k].(activating := None);
      if e.deleting {
        peers := peers[k := e];
        return false, None;
      }
      UpdatePeer(k, e.(conn := Some(c), role := role));
      return true, e.conn;
    }

    /** The section that fences a deletion. */
    method BeginDeletion(k: string, c: Conn) returns (entry: Option<nat>, ghost deletion: nat)
      requires Valid()
      modifies this
      ensures Valid() && View() == BeginDelete(old(View()), k, c) && deletion == old(nextDeletion)
      ensures entry.Some? <==> k in old(peers) && old(peers)[k].conn == Some(c) && !old(peers)[k].deleting
      ensures entry.Some? ==>
        entry.value == old(peers)[k].id && deletion in deletions && deletions[deletion] == Attempt(k, entry.value, c)
    {
      StepExact(View(), BeginsDelete(k, c));
      StepFenced(View(), BeginsDelete(k, c));
      entry, deletion := FencePeer(k, c);
    }

    method FencePeer(k: string, c: Conn) returns (entry: Option<nat>, ghost deletion: nat)
      modifies this
      ensures View() == BeginDelete(old(View()), k, c) && deletion == old(nextDeletion)
      ensures entry.Some? <==> k in old(peers) && old(peers)[k].conn == Some(c) && !old(peers)[k].deleting
      ensures entry.Some? ==>
        entry.value == old(peers)[k].id && deletion in deletions && deletions[deletion] == Attempt(k, entry.value, c)
    {
      deletion := nextDeletion;
      if k !in peers || peers[k].conn != Some(c) || peers[k].deleting {
        return None, deletion;
      }
      entry := Some(peers[k].id);
      UpdatePeer(k, peers[k].(deleting := true));
      deletions, nextDeletion := deletions[deletion := Attempt(k, entry.value, c)], deletion + 1;
    }

    /** The section that completes a deletion, or rolls it back. */
    method EndDeletion(ghost deletion: nat, k: string, entry: nat, c: Conn, ok: bool)
      requires Valid() && deletion in deletions && deletions[deletion] == Attempt(k, entry, c)
      modifies this
      ensures Valid() && View() == EndDelete(old(View()), deletion, ok)
    {
      StepExact(View(), EndsDelete(deletion, ok));
      StepFenced(View(), EndsDelete(deletion, ok));
      deletions := deletions - {deletion};
      if !(k in peers && peers[k].id == entry && peers[k].deleting) {
        return;
      }
      if ok {
        RemovePeer(k);
        return;
      }
      UpdatePeer(k, peers[k].(deleting := false));
      if peers[k].conn != Some(c) && peers[k].conn.None? && peers[k].activating.None? {
        RemovePeer(k);
      }
    }

    method QuiescePeer(k: string)
      requires Valid()
      modifies this
      ensures Valid() && View() == Quiesce(old(View()), k)
    {
      StepExact(View(), Quiesces(k));
      StepFenced(View(), Quiesces(k));
      if k in peers {
        UpdatePeer(k, peers[k].(deleting := true, activating := None));
      }
    }

    /** Returns every connection of the key, to be closed outside the lock. */
    method DetachPeerConnections(k: string) returns (conns: set<Conn>)
      requires Valid()
      modifies this
      ensures Valid() && View() == Detach(old(View()), k) && k !in peers
      ensures k !in old(peers) ==> conns == {}
      ensures k in old(peers) ==> forall c :: c in conns <==>
        (var e := old(peers)[k]; e.conn == Some(c) || e.activating == Some(c) || c in e.edges)
    {
      StepExact(View(), Detaches(k));
      StepFenced(View(), Detaches(k));
      conns := {};
      if k in peers {
        var e := peers[k];
        conns := e.edges + (if e.conn.Some? then {e.conn.value} else {}) + (if e.activating.Some? then {e.activating.value} else {});
        RemovePeer(k);
      }
    }

    method DropConn(k: string)
      requires k in peers
      modifies this`peers, this`deviceCount
      ensures View() == Drop(old(View()), k)
    {
      var e := peers[k].(conn := None);
      if e.deleting || e.activating.Some? {
        UpdatePeer(k, e);
      } else {
        peers := peers[k := e];
        RemovePeer(k);
      }
    }

    /** Nothing happens unless `c` is still the key's connection; then the key has none, and its
        entry stays only for a deletion or a reservation. */
    method SetPeerDown(k: string, c: Conn)
      requires Valid()
      modifies this
      ensures Valid() && View() == PeerDown(old(View()), k, c)
      ensures old(ConnOf(View(), k)) != Some(c) ==> View() == old(View())
      ensures old(ConnOf(View(), k)) == Some(c) ==>
        && ConnOf(View(), k).None?
        && (k in peers <==> old(Deleting(View(), k)) || old(ReservationOf(View(), k)).Some?)
    {
      StepExact(View(), GoesDown(k, c));
      StepFenced(View(), GoesDown(k, c));
      if k in peers && peers[k].conn == Some(c) {
        DropConn(k);
      }
    }

    method ForcePeerDown(k: string) returns (was: Option<Conn>)
      requires Valid()
      modifies this
      ensures Valid() && View() == ForceDown(old(View()), k)
      ensures was == if k in old(peers) then old(peers)[k].conn else None
    {
      StepExact(View(), Forces(k));
      StepFenced(View(), Forces(k));
      was := None;
      if k in peers {
        was := peers[k].conn;
        DropConn(k);
      }
    }

    method RetirePeer(k: string, c: Conn)
      requires Valid()
      modifies this
      ensures Valid() && View() == Retire(old(View()), k, c)
      ensures if old(ConnOf(View(), k)) == Some(c) then k !in peers else View() == old(View())
    {
      StepExact(View(), Retires(k, c));
      StepFenced(View(), Retires(k, c));
      if k in peers && peers[k].conn == Some(c) {
        RemovePeer(k);
      }
    }
  }
}
