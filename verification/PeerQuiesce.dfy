/** The fence that QuiescePeer puts on an entry, and what lifts it (pkgs/gizclaw/peer_manager.go). */
module PeerQuiesce {
  import opened Options
  import opened PeerManagers
  import opened PeerFencing

  /** The entry object `id` of key `k` is gone or being deleted. */
  predicate Shut(s: State, k: string, id: nat) {
    k in s.peers && s.peers[k].id == id ==> s.peers[k].deleting
  }

  /** A deletion of the entry object is between its two sections. */
  ghost predicate Pending(s: State, k: string, id: nat) {
    exists d :: d in s.deletions && s.deletions[d].key == k && s.deletions[d].entry == id
  }

  ghost predicate Continues(s: State, es: seq<Event>, s': State) {
    if es == [] then s == s'
    else
      var pre, e := es[..|es| - 1], es[|es| - 1];
      exists m :: Continues(s, pre, m) && Steps(m, e, s')
  }

  /** Without a pending deletion, every section leaves the entry shut and starts none. */
  lemma StepShut(s: State, e: Event, k: string, id: nat)
    requires Possible(s, e) && Shut(s, k, id) && !Pending(s, k, id) && id < s.nextEntry
    ensures Shut(Step(s, e), k, id) && !Pending(Step(s, e), k, id) && id < Step(s, e).nextEntry
  {
    StepMoves(s, e);
    StepDeletions(s, e, k, id);
    StepUnlocks(s, e, k, id);
  }

  /** Only a new deletion of an entry that is not being deleted adds to those pending. */
  lemma StepDeletions(s: State, e: Event, k: string, id: nat)
    requires Possible(s, e) && Shut(s, k, id) && !Pending(s, k, id)
    ensures !Pending(Step(s, e), k, id)
  {
    var s' := Step(s, e);
    assert forall d :: d in s'.deletions ==>
        (d in s.deletions && s'.deletions[d] == s.deletions[d])
        || (e.BeginsDelete? && e.key in s.peers && !s.peers[e.key].deleting
            && s'.deletions[d].key == e.key && s'.deletions[d].entry == s.peers[e.key].id);
  }

  /** Only rolling a deletion of the entry back lifts its fence. */
  lemma StepUnlocks(s: State, e: Event, k: string, id: nat)
    requires Possible(s, e) && Shut(s, k, id) && !Pending(s, k, id) && id < s.nextEntry
    ensures Shut(Step(s, e), k, id)
  {
  }

  lemma {:induction false} ShutStays(s: State, es: seq<Event>, s': State, k: string, id: nat)
    requires Continues(s, es, s') && Shut(s, k, id) && !Pending(s, k, id) && id < s.nextEntry
    ensures Shut(s', k, id) && !Pending(s', k, id) && id < s'.nextEntry
  {
    if es != [] {
      var pre, e := es[..|es| - 1], es[|es| - 1];
      var m :| Continues(s, pre, m) && Steps(m, e, s');
      ShutStays(s, pre, m, k, id);
      StepShut(m, e, k, id);
    }
  }

  /** A deletion that is pending can roll back and put the peer online again. */
  lemma PendingLifts(s: State, k: string, d: nat, c: Conn)
    requires k in s.peers && s.peers[k].deleting && d in s.deletions
    requires s.deletions[d].key == k && s.deletions[d].entry == s.peers[k].id
    ensures var s' := EndDelete(SetPeerUp(s, k, c), d, false);
      && Continues(s, [SetsUp(k, c), EndsDelete(d, false)], s')
      && k in s'.peers && s'.peers[k].id == s.peers[k].id && Online(s'.peers[k])
  {
    var s1 := SetPeerUp(s, k, c);
    var es := [SetsUp(k, c), EndsDelete(d, false)];
    assert es[..1] == [SetsUp(k, c)] && es[..1][..0] == [];
    assert Continues(s, [], s) && Steps(s, SetsUp(k, c), s1);
    assert Continues(s, es[..1], s1) && Steps(s1, EndsDelete(d, false), EndDelete(s1, d, false));
  }

  /** No continuation opens the entry again. */
  ghost predicate StaysShut(s: State, k: string, id: nat) {
    forall more, s' :: Continues(s, more, s') ==> Shut(s', k, id)
  }

  lemma PendingOpens(s: State, k: string, c: Conn)
    requires k in s.peers && s.peers[k].deleting && Pending(s, k, s.peers[k].id)
    ensures !StaysShut(s, k, s.peers[k].id)
  {
    var id := s.peers[k].id;
    var d :| d in s.deletions && s.deletions[d].key == k && s.deletions[d].entry == id;
    var s' := EndDelete(SetPeerUp(s, k, c), d, false);
    PendingLifts(s, k, d, c);
    assert Continues(s, [SetsUp(k, c), EndsDelete(d, false)], s') && !Shut(s', k, id);
  }

  lemma UnpendingStays(s: State, k: string, id: nat)
    requires Shut(s, k, id) && !Pending(s, k, id) && id < s.nextEntry
    ensures StaysShut(s, k, id)
  {
    forall more, s' | Continues(s, more, s') ensures Shut(s', k, id) {
      ShutStays(s, more, s', k, id);
    }
  }

  /** The fence of QuiescePeer holds over every continuation, until the entry is removed, if and
      only if no deletion of the entry was pending when it was put up. */
  lemma QuiesceHoldsIff(es: seq<Event>, s: State, k: string, c: Conn)
    requires Runs(es, s) && k in s.peers
    ensures StaysShut(Quiesce(s, k), k, s.peers[k].id) <==> !Pending(s, k, s.peers[k].id)
  {
    RunFenced(es, s);
    var id, q := s.peers[k].id, Quiesce(s, k);
    assert q.deletions == s.deletions && q.peers[k].id == id;
    if Pending(s, k, id) {
      PendingOpens(q, k, c);
    } else {
      UnpendingStays(q, k, id);
    }
  }
}
