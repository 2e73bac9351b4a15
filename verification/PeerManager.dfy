/** The Manager's connection state (pkgs/gizclaw/peer_manager.go, peer_metrics.go) as a state
    machine over its critical sections: activation reserves, checks and publishes in separate
    steps, deletion fences and then completes or rolls back, and the number of online devices
    is kept incrementally. */
module PeerManagers {
  import opened Options

  /** A connection object; `edge` if it serves as an edge transport. */
  datatype Conn = Conn(id: nat, edge: bool)

  datatype Role = NoRole | Client | EdgeNode | OtherRole

  /** An entry object: `id` is its identity, `holder` the activation attempt that made the
      reservation. */
  datatype Entry = Entry(
    id: nat, conn: Option<Conn>, role: Role, counted: bool, edges: set<Conn>,
    activating: Option<Conn>, holder: nat, deleting: bool)

  /** A caller between its critical sections remembers the entry it started on. */
  datatype Attempt = Attempt(key: string, entry: nat, conn: Conn)

  datatype State = State(
    peers: map<string, Entry>, count: int, nextEntry: nat,
    attempts: map<nat, Attempt>, nextAttempt: nat, deletions: map<nat, Attempt>, nextDeletion: nat)

  function Start(): (s: State) {
    State(map[], 0, 0, map[], 0, map[], 0)
  }

  predicate Online(e: Entry) { e.conn.Some? && !e.deleting && e.role == Client }

  // -------------------------------------------------------------------------- metrics

  /** updateDeviceCountLocked, after the entry of `k` has become `e`. */
  function Settle(s: State, k: string, e: Entry): (s': State) {
    s.(peers := s.peers[k := e.(counted := Online(e))],
       count := s.count + (if Online(e) then 1 else 0) - (if e.counted then 1 else 0))
  }

  /** removePeerLocked */
  function Remove(s: State, k: string): (s': State) {
    s.(peers := s.peers - {k}, count := if k in s.peers && s.peers[k].counted then s.count - 1 else s.count)
  }

  // ------------------------------------------------------------------- critical sections

  function Blank(id: nat): Entry { Entry(id, None, NoRole, false, {}, None, 0, false) }

  /** The entry of `k`, made when there is none. */
  function Ensure(s: State, k: string): (s': State)
    ensures k in s'.peers
  {
    if k in s.peers then s else s.(peers := s.peers[k := Blank(s.nextEntry)], nextEntry := s.nextEntry + 1)
  }

  function EdgeUp(s: State, k: string, c: Conn): (s': State) {
    var s1 := Ensure(s, k);
    var e := s1.peers[k];
    if e.deleting then s1
    else Settle(s1, k, e.(edges := e.edges + {c}, role := EdgeNode, conn := if e.conn.None? then Some(c) else e.conn))
  }

  /** `next` is the edge transport that takes over, if any is left. */
  function EdgeDown(s: State, k: string, c: Conn, next: Option<Conn>): (s': State) {
    if k !in s.peers then s
    else
      var e := s.peers[k];
      var e1 := e.(edges := e.edges - {c}, conn := if e.conn == Some(c) then next else e.conn);
      var s1 := s.(peers := s.peers[k := e1]);
      if e1.edges == {} && e1.conn.None? && e1.activating.None? then Remove(s1, k) else s1
  }

  ghost predicate Takes(s: State, k: string, c: Conn, next: Option<Conn>) {
    k in s.peers ==>
      var left := s.peers[k].edges - {c};
      if left == {} then next.None? else next.Some? && next.value in left
  }

  function SetPeerUp(s: State, k: string, c: Conn): (s': State) {
    var s1 := Ensure(s, k);
    Settle(s1, k, s1.peers[k].(conn := Some(c), role := Client, activating := None))
  }

  /** The first section of activatePeer. */
  function Reserve(s: State, k: string, c: Conn): (s': State) {
    var s1 := Ensure(s, k);
    var e := s1.peers[k];
    if e.deleting || e.activating.Some? then s1
    else
      var a := s1.nextAttempt;
      s1.(peers := s1.peers[k := e.(activating := Some(c), holder := a)],
          attempts := s1.attempts[a := Attempt(k, e.id, c)], nextAttempt := a + 1)
  }

  /** The entry that an attempt started on is still there and reserved for its connection. */
  predicate Reserved(s: State, a: Attempt) {
    a.key in s.peers && s.peers[a.key].id == a.entry && s.peers[a.key].activating == Some(a.conn)
  }

  /** The section that ends a failed activation. */
  function GiveUp(s: State, i: nat): (s': State)
    requires i in s.attempts
  {
    var a := s.attempts[i];
    var s1 := s.(attempts := s.attempts - {i});
    if !Reserved(s, a) then s1
    else
      var s2 := s1.(peers := s1.peers[a.key := s1.peers[a.key].(activating := None)]);
      if s2.peers[a.key].conn.None? then Remove(s2, a.key) else s2
  }

  /** The section that publishes an activated connection. */
  function Publish(s: State, i: nat, role: Role): (s': State)
    requires i in s.attempts
  {
    var a := s.attempts[i];
    var s1 := s.(attempts := s.attempts - {i});
    if !Reserved(s, a) then s1
    else
      var e := s1.peers[a.key].(activating := None);
      if e.deleting then s1.(peers := s1.peers[a.key := e])
      else Settle(s1, a.key, e.(conn := Some(a.conn), role := role))
  }

  /** The section that fences a deletion. */
  function BeginDelete(s: State, k: string, c: Conn): (s': State) {
    if k !in s.peers || s.peers[k].conn != Some(c) || s.peers[k].deleting then s
    else
      var d := s.nextDeletion;
      Settle(s, k, s.peers[k].(deleting := true)).(
        deletions := s.deletions[d := Attempt(k, s.peers[k].id, c)], nextDeletion := d + 1)
  }

  /** The section that completes a deletion, or rolls it back. */
  function EndDelete(s: State, d: nat, ok: bool): (s': State)
    requires d in s.deletions
  {
    var a := s.deletions[d];
    var s1 := s.(deletions := s.deletions - {d});
    if !(a.key in s.peers && s.peers[a.key].id == a.entry && s.peers[a.key].deleting) then s1
    else if ok then Remove(s1, a.key)
    else
      var s2 := Settle(s1, a.key, s1.peers[a.key].(deleting := false));
      var e := s2.peers[a.key];
      if e.conn != Some(a.conn) && e.conn.None? && e.activating.None? then Remove(s2, a.key) else s2
  }

  function Quiesce(s: State, k: string): (s': State) {
    if k !in s.peers then s else Settle(s, k, s.peers[k].(deleting := true, activating := None))
  }

  function Detach(s: State, k: string): (s': State) {
    if k !in s.peers then s else Remove(s, k)
  }

  /** The connection of `k` is gone; what is left depends on who still needs the entry. */
  function Drop(s: State, k: string): (s': State)
    requires k in s.peers
  {
    var e := s.peers[k];
    if e.deleting || e.activating.Some? then Settle(s, k, e.(conn := None))
    else Remove(s.(peers := s.peers[k := e.(conn := None)]), k)
  }

  function PeerDown(s: State, k: string, c: Conn): (s': State) {
    if k !in s.peers || s.peers[k].conn != Some(c) then s else Drop(s, k)
  }

  function ForceDown(s: State, k: string): (s': State) {
    if k !in s.peers then s else Drop(s, k)
  }

  function Retire(s: State, k: string, c: Conn): (s': State) {
    if k !in s.peers || s.peers[k].conn != Some(c) then s else Remove(s, k)
  }

  // ------------------------------------------------------------------------------- steps

  datatype Event =
    | EdgesUp(key: string, conn: Conn) | EdgesDown(key: string, conn: Conn, next: Option<Conn>)
    | SetsUp(key: string, conn: Conn) | Reserves(key: string, conn: Conn)
    | GivesUp(attempt: nat) | Publishes(attempt: nat, role: Role)
    | BeginsDelete(key: string, conn: Conn) | EndsDelete(deletion: nat, ok: bool)
    | Quiesces(key: string) | Detaches(key: string)
    | GoesDown(key: string, conn: Conn) | Forces(key: string) | Retires(key: string, conn: Conn)

  ghost predicate Possible(s: State, e: Event) {
    match e
    case EdgesDown(k, c, next) => Takes(s, k, c, next)
    case GivesUp(i) => i in s.attempts
    case Publishes(i, _) => i in s.attempts
    case EndsDelete(d, _) => d in s.deletions
    case _ => true
  }

  ghost function Step(s: State, e: Event): (s': State)
    requires Possible(s, e)
  {
    match e
    case EdgesUp(k, c) => EdgeUp(s, k, c)
    case EdgesDown(k, c, next) => EdgeDown(s, k, c, next)
    case SetsUp(k, c) => SetPeerUp(s, k, c)
    case Reserves(k, c) => Reserve(s, k, c)
    case GivesUp(i) => GiveUp(s, i)
    case Publishes(i, role) => Publish(s, i, role)
    case BeginsDelete(k, c) => BeginDelete(s, k, c)
    case EndsDelete(d, ok) => EndDelete(s, d, ok)
    case Quiesces(k) => Quiesce(s, k)
    case Detaches(k) => Detach(s, k)
    case GoesDown(k, c) => PeerDown(s, k, c)
    case Forces(k) => ForceDown(s, k)
    case Retires(k, c) => Retire(s, k, c)
  }

  ghost predicate Runs(es: seq<Event>, s: State) {
    if es == [] then s == Start()
    else
      var pre, e := es[..|es| - 1], es[|es| - 1];
      exists m :: Runs(pre, m) && Steps(m, e, s)
  }

  ghost predicate Steps(m: State, e: Event, s: State) { Possible(m, e) && s == Step(m, e) }

  // ------------------------------------------------------------------------ device count

  function Counted(peers: map<string, Entry>): set<string> { set k | k in peers && peers[k].counted }

  ghost predicate Flagged(peers: map<string, Entry>) { forall k :: k in peers ==> peers[k].counted == Online(peers[k]) }

  /** The counter is the number of entries with a connection, not deleting, of a client. */
  ghost predicate Exact(s: State) { Flagged(s.peers) && s.count == |Counted(s.peers)| }

  /** Replacing one entry changes the number by the difference of its flags. */
  lemma CountPut(peers: map<string, Entry>, k: string, e: Entry)
    ensures |Counted(peers[k := e])| ==
      |Counted(peers)| - (if k in peers && peers[k].counted then 1 else 0) + (if e.counted then 1 else 0)
  {
    var was, now := Counted(peers), Counted(peers[k := e]);
    assert was - {k} == now - {k};
    SizeBut(was, k);
    SizeBut(now, k);
  }

  lemma SizeBut(ks: set<string>, k: string)
    ensures |ks| == |ks - {k}| + if k in ks then 1 else 0
  {
    if k !in ks {
      assert ks - {k} == ks;
    }
  }

  lemma CountRemove(peers: map<string, Entry>, k: string)
    ensures |Counted(peers - {k})| == |Counted(peers)| - (if k in peers && peers[k].counted then 1 else 0)
  {
    assert Counted(peers - {k}) == Counted(peers) - {k};
  }

  /** Settling a changed entry: whatever became of it, the count is exact again. */
  lemma SettleExact(s: State, k: string, e: Entry)
    requires Exact(s) && e.counted == (k in s.peers && s.peers[k].counted)
    ensures Exact(Settle(s, k, e))
  {
    CountPut(s.peers, k, e.(counted := Online(e)));
  }

  lemma RemoveExact(s: State, k: string)
    requires s.count == |Counted(s.peers)| && forall j :: j in s.peers && j != k ==> s.peers[j].counted == Online(s.peers[j])
    ensures Exact(Remove(s, k))
  {
    CountRemove(s.peers, k);
  }

  /** A change that neither counts nor puts an entry online or offline. */
  lemma PutExact(s: State, k: string, e: Entry, s': State)
    requires Exact(s) && s'.peers == s.peers[k := e] && s'.count == s.count
    requires e.counted == Online(e) == (k in s.peers && s.peers[k].counted)
    ensures Exact(s')
  {
    CountPut(s.peers, k, e);
  }

  lemma EnsureExact(s: State, k: string)
    requires Exact(s)
    ensures Exact(Ensure(s, k))
  {
    if k !in s.peers {
      PutExact(s, k, Blank(s.nextEntry), Ensure(s, k));
    }
  }

  lemma ReserveExact(s: State, k: string, c: Conn)
    requires Exact(s)
    ensures Exact(Reserve(s, k, c))
  {
    EnsureExact(s, k);
    var s1 := Ensure(s, k);
    if !s1.peers[k].deleting && s1.peers[k].activating.None? {
      PutExact(s1, k, s1.peers[k].(activating := Some(c), holder := s1.nextAttempt), Reserve(s, k, c));
    }
  }

  lemma GiveUpExact(s: State, i: nat)
    requires Exact(s) && i in s.attempts
    ensures Exact(GiveUp(s, i))
  {
    var a := s.attempts[i];
    if Reserved(s, a) {
      var s2 := s.(attempts := s.attempts - {i}, peers := s.peers[a.key := s.peers[a.key].(activating := None)]);
      PutExact(s, a.key, s.peers[a.key].(activating := None), s2);
      RemoveExact(s2, a.key);
    }
  }

  lemma PublishExact(s: State, i: nat, role: Role)
    requires Exact(s) && i in s.attempts
    ensures Exact(Publish(s, i, role))
  {
    var a := s.attempts[i];
    if Reserved(s, a) {
      var e := s.peers[a.key].(activating := None);
      if e.deleting {
        PutExact(s, a.key, e, Publish(s, i, role));
      } else {
        SettleExact(s.(attempts := s.attempts - {i}), a.key, e.(conn := Some(a.conn), role := role));
      }
    }
  }

  lemma DeleteExact(s: State, d: nat, ok: bool)
    requires Exact(s) && d in s.deletions
    ensures Exact(EndDelete(s, d, ok))
  {
    var a := s.deletions[d];
    var s1 := s.(deletions := s.deletions - {d});
    if a.key in s.peers {
      RemoveExact(s1, a.key);
      var s2 := Settle(s1, a.key, s1.peers[a.key].(deleting := false));
      SettleExact(s1, a.key, s1.peers[a.key].(deleting := false));
      RemoveExact(s2, a.key);
    }
  }

  lemma DropExact(s: State, k: string)
    requires Exact(s) && k in s.peers
    ensures Exact(Drop(s, k))
  {
    var e := s.peers[k].(conn := None);
    SettleExact(s, k, e);
    CountPut(s.peers, k, e);
    RemoveExact(s.(peers := s.peers[k := e]), k);
  }

  /** An edge transport that goes down takes the only connection of a counted entry while an
      activation is pending. */
  predicate Miscounts(s: State, k: string, c: Conn) {
    && k in s.peers && s.peers[k].conn == Some(c) && Online(s.peers[k])
    && s.peers[k].edges - {c} == {} && s.peers[k].activating.Some?
  }

  /** setEdgeTransportDown keeps the count exactly when that is not the case: it changes the
      connection without settling the count. */
  lemma EdgeDownExactIff(s: State, k: string, c: Conn, next: Option<Conn>)
    requires Exact(s) && Takes(s, k, c, next)
    ensures Exact(EdgeDown(s, k, c, next)) <==> !Miscounts(s, k, c)
  {
    if k in s.peers {
      var e := s.peers[k];
      var e1 := e.(edges := e.edges - {c}, conn := if e.conn == Some(c) then next else e.conn);
      var s1 := s.(peers := s.peers[k := e1]);
      CountPut(s.peers, k, e1);
      RemoveExact(s1, k);
      assert k in s1.peers && s1.peers[k] == e1;
    }
  }

  /** Such a state is reached when one connection is brought up as an edge transport, set up as
      a client, and taken down as the transport while an activation is pending: nobody is
      online and the counter says one. */
  lemma MiscountReached(k: string, c: Conn, pending: Conn)
    ensures var s := Reserve(SetPeerUp(EdgeUp(Start(), k, c), k, c), k, pending);
      && Runs([EdgesUp(k, c), SetsUp(k, c), Reserves(k, pending)], s) && Miscounts(s, k, c) && Takes(s, k, c, None)
      && EdgeDown(s, k, c, None).count == 1 && !Online(EdgeDown(s, k, c, None).peers[k])
  {
    var es := [EdgesUp(k, c), SetsUp(k, c), Reserves(k, pending)];
    var s1 := EdgeUp(Start(), k, c);
    var s2 := SetPeerUp(s1, k, c);
    assert es[..2][..1] == [EdgesUp(k, c)] && es[..2][..1][..0] == [];
    assert Runs([], Start()) && Steps(Start(), EdgesUp(k, c), s1);
    assert Runs(es[..2][..1], s1) && Steps(s1, SetsUp(k, c), s2);
    assert Runs(es[..2], s2) && Steps(s2, Reserves(k, pending), Reserve(s2, k, pending));
  }

  /** Every other section keeps the count exact. */
  lemma StepExact(s: State, e: Event)
    requires Exact(s) && Possible(s, e) && (e.EdgesDown? ==> !Miscounts(s, e.key, e.conn))
    ensures Exact(Step(s, e))
  {
    match e
    case EdgesUp(k, c) =>
      EnsureExact(s, k);
      var x := Ensure(s, k).peers[k];
      SettleExact(Ensure(s, k), k, x.(edges := x.edges + {c}, role := EdgeNode, conn := if x.conn.None? then Some(c) else x.conn));
    case EdgesDown(k, c, next) => EdgeDownExactIff(s, k, c, next);
    case SetsUp(k, c) =>
      EnsureExact(s, k);
      SettleExact(Ensure(s, k), k, Ensure(s, k).peers[k].(conn := Some(c), role := Client, activating := None));
    case Reserves(k, c) => ReserveExact(s, k, c);
    case GivesUp(i) => GiveUpExact(s, i);
    case Publishes(i, role) => PublishExact(s, i, role);
    case BeginsDelete(k, c) =>
      if k in s.peers {
        SettleExact(s, k, s.peers[k].(deleting := true));
      }
    case EndsDelete(d, ok) => DeleteExact(s, d, ok);
    case Quiesces(k) =>
      if k in s.peers {
        SettleExact(s, k, s.peers[k].(deleting := true, activating := None));
      }
    case Detaches(k) => RemoveExact(s, k);
    case GoesDown(k, c) =>
      if k in s.peers {
        DropExact(s, k);
      }
    case Forces(k) =>
      if k in s.peers {
        DropExact(s, k);
      }
    case Retires(k, c) => RemoveExact(s, k);
  }

  /** Edge transports and clients are different connections. */
  ghost predicate Parted(e: Event) {
    match e
    case EdgesUp(_, c) => c.edge
    case EdgesDown(_, c, _) => c.edge
    case SetsUp(_, c) => !c.edge
    case Reserves(_, c) => !c.edge
    case _ => true
  }

  /** An entry whose connection is an edge transport has the edge role. */
  ghost predicate EdgeRoles(s: State) {
    && (forall k :: k in s.peers ==> EdgeRole(s.peers[k]))
    && (forall i :: i in s.attempts ==> !s.attempts[i].conn.edge)
  }

  ghost predicate EdgeRole(e: Entry) {
    (e.conn.Some? && e.conn.value.edge ==> e.role == EdgeNode) && forall c :: c in e.edges ==> c.edge
  }

  lemma UpEdgeRoles(s: State, e: Event, k: string)
    requires EdgeRoles(s) && Possible(s, e) && Parted(e) && (e.EdgesUp? || e.EdgesDown? || e.SetsUp? || e.Reserves?)
    ensures k in Step(s, e).peers ==> EdgeRole(Step(s, e).peers[k])
  {
    assert k in s.peers ==> EdgeRole(s.peers[k]);
  }

  lemma OtherEdgeRoles(s: State, e: Event, k: string)
    requires EdgeRoles(s) && Possible(s, e) && !(e.EdgesUp? || e.EdgesDown? || e.SetsUp? || e.Reserves?)
    ensures k in Step(s, e).peers ==> EdgeRole(Step(s, e).peers[k])
  {
    assert k in s.peers ==> EdgeRole(s.peers[k]);
  }

  lemma StepEdgeRoles(s: State, e: Event)
    requires EdgeRoles(s) && Possible(s, e) && Parted(e)
    ensures EdgeRoles(Step(s, e))
  {
    StepClients(s, e);
    forall k | k in Step(s, e).peers ensures EdgeRole(Step(s, e).peers[k]) {
      if e.EdgesUp? || e.EdgesDown? || e.SetsUp? || e.Reserves? {
        UpEdgeRoles(s, e, k);
      } else {
        OtherEdgeRoles(s, e, k);
      }
    }
  }

  lemma StepClients(s: State, e: Event)
    requires Possible(s, e) && Parted(e) && forall i :: i in s.attempts ==> !s.attempts[i].conn.edge
    ensures forall i :: i in Step(s, e).attempts ==> !Step(s, e).attempts[i].conn.edge
  {
  }

  /** In every reachable state the counter is exact, when a connection serves either as an
      edge transport or as a client. */
  lemma {:induction false} RunExact(es: seq<Event>, s: State)
    requires Runs(es, s) && forall i :: 0 <= i < |es| ==> Parted(es[i])
    ensures Exact(s) && EdgeRoles(s)
  {
    if es != [] {
      var pre, e := es[..|es| - 1], es[|es| - 1];
      var m :| Runs(pre, m) && Steps(m, e, s);
      RunExact(pre, m);
      StepEdgeRoles(m, e);
      StepExact(m, e);
    }
  }
}
