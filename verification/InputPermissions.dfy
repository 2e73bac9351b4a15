/** The input permission cache (pkgs/gizclaw/peer_input_permissions.go) as a state machine:
    callers look in the cache, join the lookup under way or make their own, and a result is
    kept only if the runtime has not changed meanwhile. The runtime revision and the clock
    belong to the environment. */
module InputPermissions {
  import opened Options

  const MAX_AGE: nat := 7_000
  const REQUEST_TIMEOUT: nat := 2_000

  /** A decision; `lookup` numbers the lookup that it comes from. Times are in milliseconds. */
  datatype Value = Value(revision: nat, denied: bool, checkedAt: nat, workspace: string, active: bool, lookup: nat)

  /** Where a caller of inputPermission is. */
  datatype Phase =
    | Asks(revision: nat, refresh: bool)
    | Waits(revision: nat, on: nat)
    | Claims(revision: nat, lookup: nat)
    | Reads(revision: nat, lookup: nat, since: nat)
    | HasRead(value: Value, ended: nat)
    | Holds(value: Value)
    | Answered(answer: Option<Value>, at: nat)

  /** What a lookup stored, the runtime revision at that moment, and when the read ended. */
  datatype Stored = Stored(value: Value, runtime: nat, ended: nat)

  datatype Cache = Cache(
    closed: bool, valid: bool, value: Value, waiting: Option<nat>,
    revision: nat, clock: nat, callers: map<nat, Phase>, nextLookup: nat, stored: map<nat, Stored>)

  function Start(): (s: Cache) {
    Cache(false, false, Value(0, false, 0, "", false, 0), None, 0, 0, map[], 0, map[])
  }

  function Goes(s: Cache, i: nat, p: Phase): (s': Cache) { s.(callers := s.callers[i := p]) }

  /** The locked section at the head of the loop. */
  function Look(s: Cache, i: nat, revision: nat, refresh: bool): (s': Cache) {
    if s.closed then Goes(s, i, Answered(None, s.clock))
    else if !refresh && s.valid && s.value.revision == revision then Goes(s, i, Holds(s.value))
    else if s.waiting.Some? then Goes(s, i, Waits(revision, s.waiting.value))
    else Goes(s, i, Claims(revision, s.nextLookup)).(waiting := Some(s.nextLookup), nextLookup := s.nextLookup + 1)
  }

  /** The age check of a cached value, after the lock is released. */
  function Check(s: Cache, i: nat, v: Value): (s': Cache) {
    Goes(s, i, Answered(if s.clock - v.checkedAt > MAX_AGE then None else Some(v), s.clock))
  }

  /** The locked section after a lookup. */
  function Store(s: Cache, i: nat, v: Value, ended: nat): (s': Cache) {
    if !s.closed && s.revision == v.revision
    then Goes(s, i, Answered(Some(v), s.clock)).(
           value := v, valid := true, waiting := None, stored := s.stored[v.lookup := Stored(v, s.revision, ended)])
    else Goes(s, i, Answered(None, s.clock)).(waiting := None)
  }

  /** advanceInputPermissionRevision */
  function Advance(s: Cache, workspace: string, previous: nat, current: nat): (s': Cache) {
    if s.valid && s.value.revision == previous && s.value.workspace == workspace && !s.value.denied && s.revision == current
    then s.(value := s.value.(revision := current, active := true)) else s
  }

  /** permissionAllowsAudio */
  predicate AllowsAudio(s: Cache, revision: nat) {
    && !s.closed
    && (s.valid ==> s.value.revision == revision && !s.value.denied && s.clock - s.value.checkedAt <= MAX_AGE)
  }

  datatype Event =
    | Enters(i: nat, refresh: bool)
    | Looks(i: nat)
    | Wakes(i: nat)
    | Abandons(i: nat)
    | Opens(i: nat)
    | FinishesRead(i: nat, denied: bool, workspace: string, active: bool)
    | Stores(i: nat)
    | Checks(i: nat)
    | Advances(workspace: string, previous: nat, current: nat)
    | Stops
    | Revises(revision: nat)
    | Ticks(clock: nat)

  /** A waiting caller wakes when the lookup it joined is over. A lookup that its timeout
      overtook is denied. */
  predicate Possible(s: Cache, e: Event) {
    match e
    case Enters(i, _) => i !in s.callers || s.callers[i].Answered?
    case Looks(i) => i in s.callers && s.callers[i].Asks?
    case Wakes(i) => i in s.callers && s.callers[i].Waits? && s.waiting != Some(s.callers[i].on)
    case Abandons(i) => i in s.callers && (s.callers[i].Asks? || s.callers[i].Waits?)
    case Opens(i) => i in s.callers && s.callers[i].Claims?
    case FinishesRead(i, denied, _, _) =>
      i in s.callers && s.callers[i].Reads? && (denied || s.clock - s.callers[i].since < REQUEST_TIMEOUT)
    case Stores(i) => i in s.callers && s.callers[i].HasRead?
    case Checks(i) => i in s.callers && s.callers[i].Holds?
    case Ticks(clock) => clock >= s.clock
    case _ => true
  }

  function Step(s: Cache, e: Event): (s': Cache)
    requires Possible(s, e)
  {
    match e
    case Enters(i, refresh) => Goes(s, i, Asks(s.revision, refresh))
    case Looks(i) => Look(s, i, s.callers[i].revision, s.callers[i].refresh)
    case Wakes(i) => Goes(s, i, Asks(s.callers[i].revision, false))
    case Abandons(i) => Goes(s, i, Answered(None, s.clock))
    case Opens(i) => Goes(s, i, Reads(s.callers[i].revision, s.callers[i].lookup, s.clock))
    case FinishesRead(i, denied, workspace, active) =>
      var p := s.callers[i];
      Goes(s, i, HasRead(Value(p.revision, denied, p.since, workspace, active, p.lookup), s.clock))
    case Stores(i) => Store(s, i, s.callers[i].value, s.callers[i].ended)
    case Checks(i) => Check(s, i, s.callers[i].value)
    case Advances(workspace, previous, current) => Advance(s, workspace, previous, current)
    case Stops => s.(closed := true)
    case Revises(revision) => s.(revision := revision)
    case Ticks(clock) => s.(clock := clock)
  }

  // --------------------------------------------------------------------------- invariants

  /** The lookup that a caller is making. */
  function Making(p: Phase): (n: Option<nat>) {
    match p
    case Claims(_, n) => Some(n)
    case Reads(_, n, _) => Some(n)
    case HasRead(v, _) => Some(v.lookup)
    case _ => None
  }

  /** A lookup is under way exactly while one caller, and no other, is making it. */
  ghost predicate Single(s: Cache) {
    && (forall i :: i in s.callers && Making(s.callers[i]).Some? ==> Making(s.callers[i]) == s.waiting)
    && (forall i, j :: i in s.callers && j in s.callers && Making(s.callers[i]).Some? && Making(s.callers[j]).Some? ==> i == j)
    && (s.waiting.Some? ==> exists i :: i in s.callers && Making(s.callers[i]).Some?)
  }

  /** `v` is what its lookup stored, or that with the revision advanced. */
  ghost predicate Traced(s: Cache, v: Value) {
    && v.lookup in s.stored
    && var v0 := s.stored[v.lookup].value;
       v == v0 || (!v0.denied && v == v0.(revision := v.revision, active := true))
  }

  /** The read ended by now, and within the request timeout unless it denies. */
  predicate Prompt(v: Value, ended: nat, clock: nat) {
    v.checkedAt <= ended <= clock && (!v.denied ==> ended < v.checkedAt + REQUEST_TIMEOUT)
  }

  /** Every lookup stored its result under the revision it was read under, and every cached
      or held value comes from such a lookup. */
  ghost predicate Sourced(s: Cache) {
    && (forall n :: n in s.stored ==>
          s.stored[n].runtime == s.stored[n].value.revision && Prompt(s.stored[n].value, s.stored[n].ended, s.clock))
    && (s.valid ==> Traced(s, s.value))
    && (forall i :: i in s.callers && s.callers[i].Holds? ==> Traced(s, s.callers[i].value))
    && (forall i :: i in s.callers && s.callers[i].Reads? ==> s.callers[i].since <= s.clock)
    && (forall i :: i in s.callers && s.callers[i].HasRead? ==> Prompt(s.callers[i].value, s.callers[i].ended, s.clock))
  }

  /** The lookup under way is a new one. */
  ghost predicate Ahead(s: Cache) {
    && (s.waiting.Some? ==> s.waiting.value < s.nextLookup && s.waiting.value !in s.stored)
    && (forall n :: n in s.stored ==> n < s.nextLookup)
  }

  ghost predicate Inv(s: Cache) { Single(s) && Sourced(s) && Ahead(s) }

  function MakingAt(s: Cache, i: nat): (n: Option<nat>) { if i in s.callers then Making(s.callers[i]) else None }

  /** A caller moves on without starting or ending a lookup. */
  lemma MovesSingle(s: Cache, s': Cache, i: nat, p: Phase)
    requires Single(s) && s'.callers == s.callers[i := p] && s'.waiting == s.waiting && Making(p) == MakingAt(s, i)
    ensures Single(s')
  {
    if s.waiting.Some? {
      var j :| j in s.callers && Making(s.callers[j]).Some?;
      assert j in s'.callers && Making(s'.callers[j]).Some?;
    }
  }

  lemma ClaimSingle(s: Cache, s': Cache, i: nat, n: nat, revision: nat)
    requires Single(s) && s.waiting.None? && s'.callers == s.callers[i := Claims(revision, n)] && s'.waiting == Some(n)
    ensures Single(s')
  {
    assert Making(s'.callers[i]) == Some(n);
  }

  lemma LookSingle(s: Cache, i: nat)
    requires Single(s) && Possible(s, Looks(i))
    ensures Single(Step(s, Looks(i)))
  {
    var s' := Step(s, Looks(i));
    if s'.callers[i].Claims? {
      ClaimSingle(s, s', i, s.nextLookup, s.callers[i].revision);
    } else {
      MovesSingle(s, s', i, s'.callers[i]);
    }
  }

  lemma StoreSingle(s: Cache, s': Cache, i: nat, p: Phase)
    requires Single(s) && MakingAt(s, i).Some? && s'.callers == s.callers[i := p] && Making(p).None? && s'.waiting.None?
    ensures Single(s')
  {
  }

  lemma StepSingle(s: Cache, e: Event)
    requires Single(s) && Possible(s, e)
    ensures Single(Step(s, e))
  {
    var s' := Step(s, e);
    match e
    case Looks(i) => LookSingle(s, i);
    case Stores(i) => StoreSingle(s, s', i, s'.callers[i]);
    case Advances(_, _, _) =>
    case Stops =>
    case Revises(_) =>
    case Ticks(_) =>
    case _ => MovesSingle(s, s', e.i, s'.callers[e.i]);
  }

  lemma StepAhead(s: Cache, e: Event)
    requires Single(s) && Ahead(s) && Possible(s, e)
    ensures Ahead(Step(s, e))
  {
  }

  lemma StepSourced(s: Cache, e: Event)
    requires Inv(s) && Possible(s, e)
    ensures Sourced(Step(s, e))
  {
    match e
    case Stores(i) => StoreSourced(s, i);
    case Advances(workspace, previous, current) =>
    case _ => UnstoredSourced(s, e);
  }

  /** Storing under a new number leaves every trace. */
  lemma TracedLater(s: Cache, s': Cache, n: nat, v: Value)
    requires Traced(s, v) && n !in s.stored && s'.stored.Keys == s.stored.Keys + {n}
    requires forall m :: m in s.stored ==> s'.stored[m] == s.stored[m]
    ensures Traced(s', v)
  {
  }

  lemma StoreSourced(s: Cache, i: nat)
    requires Inv(s) && i in s.callers && s.callers[i].HasRead?
    ensures Sourced(Store(s, i, s.callers[i].value, s.callers[i].ended))
  {
    var v, ended := s.callers[i].value, s.callers[i].ended;
    var s' := Store(s, i, v, ended);
    assert MakingAt(s, i) == s.waiting;
    if !s.closed && s.revision == v.revision {
      assert v.lookup !in s.stored;
      forall j | j in s'.callers && s'.callers[j].Holds? ensures Traced(s', s'.callers[j].value) {
        TracedLater(s, s', v.lookup, s.callers[j].value);
      }
    }
  }

  /** What a caller may carry. */
  ghost predicate CarriesSourced(s: Cache, p: Phase) {
    && (p.Holds? ==> Traced(s, p.value)) && (p.Reads? ==> p.since <= s.clock)
    && (p.HasRead? ==> Prompt(p.value, p.ended, s.clock))
  }

  lemma CallerSourced(s: Cache, s': Cache, i: nat, p: Phase)
    requires Sourced(s) && s'.callers == s.callers[i := p] && CarriesSourced(s, p)
    requires s'.stored == s.stored && s'.value == s.value && s'.valid == s.valid && s'.clock == s.clock
    ensures Sourced(s')
  {
  }

  lemma UnstoredSourced(s: Cache, e: Event)
    requires Sourced(s) && Possible(s, e) && !e.Stores? && !e.Advances?
    ensures Sourced(Step(s, e))
  {
    if !e.Stops? && !e.Revises? && !e.Ticks? {
      CallerSourced(s, Step(s, e), e.i, Step(s, e).callers[e.i]);
    }
  }

  lemma StepKeeps(s: Cache, e: Event)
    requires Inv(s) && Possible(s, e)
    ensures Inv(Step(s, e))
  {
    StepSingle(s, e);
    StepAhead(s, e);
    StepSourced(s, e);
  }

  ghost predicate Runs(s: Cache, es: seq<Event>, s': Cache) {
    if es == [] then s == s'
    else
      var pre, e := es[..|es| - 1], es[|es| - 1];
      exists m :: Runs(s, pre, m) && Steps(m, e, s')
  }

  ghost predicate Steps(s: Cache, e: Event, s': Cache) { Possible(s, e) && s' == Step(s, e) }

  lemma {:induction false} RunKeeps(s: Cache, es: seq<Event>, s': Cache)
    requires Inv(s) && Runs(s, es, s')
    ensures Inv(s')
  {
    if es != [] {
      var pre, e := es[..|es| - 1], es[|es| - 1];
      var m :| Runs(s, pre, m) && Steps(m, e, s');
      RunKeeps(s, pre, m);
      StepKeeps(m, e);
    }
  }

  // ----------------------------------------------------------------------------- theorems

  /** At most one lookup is under way, and callers that join it wait for that one. */
  lemma OneLookup(es: seq<Event>, s: Cache, i: nat, j: nat)
    requires Runs(Start(), es, s) && i in s.callers && j in s.callers
    requires Making(s.callers[i]).Some? && Making(s.callers[j]).Some?
    ensures i == j && s.waiting == Making(s.callers[i])
  {
    RunKeeps(Start(), es, s);
  }

  /** An answer that the cache gives and that does not deny comes from a lookup that began at
      most 7 seconds ago, did not deny and was stored while the runtime revision was the one
      it had read under; only its revision may have been advanced since. */
  lemma CachedAnswerIsRecent(es: seq<Event>, s: Cache, i: nat)
    requires Runs(Start(), es, s) && i in s.callers && s.callers[i].Holds?
    requires Step(s, Checks(i)).callers[i].answer.Some?
    ensures var v := Step(s, Checks(i)).callers[i].answer.value;
      && v.lookup in s.stored
      && var from := s.stored[v.lookup];
         && from.runtime == from.value.revision && from.value.denied == v.denied && from.value.workspace == v.workspace
         && from.value.checkedAt == v.checkedAt <= from.ended <= s.clock <= v.checkedAt + MAX_AGE
         && (!v.denied ==> from.ended < v.checkedAt + REQUEST_TIMEOUT)
         && (v.denied ==> v == from.value)
  {
    RunKeeps(Start(), es, s);
  }

  /** A caller's own answer that does not deny: its lookup ended within 2 seconds of its start,
      the runtime revision is still the one it read under, and the cache is open and keeps it. */
  lemma OwnAnswerIsPrompt(es: seq<Event>, s: Cache, i: nat)
    requires Runs(Start(), es, s) && i in s.callers && s.callers[i].HasRead?
    ensures var v, ended, s' := s.callers[i].value, s.callers[i].ended, Step(s, Stores(i));
      s'.callers[i].answer.Some? && !v.denied ==>
        && s'.callers[i].answer == Some(v) && v.checkedAt <= ended < v.checkedAt + REQUEST_TIMEOUT && ended <= s.clock
        && !s.closed && s.revision == v.revision && s'.valid && s'.value == v
  {
    RunKeeps(Start(), es, s);
  }

  /** The same holds of what audio is let through on, once there is a decision at all. */
  lemma AudioIsRecent(es: seq<Event>, s: Cache, revision: nat)
    requires Runs(Start(), es, s) && s.valid && AllowsAudio(s, revision)
    ensures s.value.revision == revision && s.value.lookup in s.stored
    ensures var from := s.stored[s.value.lookup];
      !from.value.denied && from.runtime == from.value.revision && s.clock <= from.value.checkedAt + MAX_AGE
  {
    RunKeeps(Start(), es, s);
  }

  /** What caller `i` has in state `s'`, it took before `s`. */
  ghost predicate TookBefore(s: Cache, s': Cache, i: nat) {
    && (i in s'.callers && s'.callers[i].Holds? ==> i in s.callers && s.callers[i] == s'.callers[i])
    && (i in s'.callers && s'.callers[i].Answered? && s'.callers[i].answer.Some? ==>
          i in s.callers && (s.callers[i] == s'.callers[i] || s.callers[i] == Holds(s'.callers[i].answer.value)))
  }

  lemma ClosedStep(s: Cache, e: Event, i: nat)
    requires s.closed && Possible(s, e)
    ensures Step(s, e).closed && Step(s, e).stored == s.stored && TookBefore(s, Step(s, e), i)
  {
  }

  /** After stop nothing more is stored or taken from the cache and no audio is let through:
      the only answers that do not deny were taken from it before. */
  lemma {:induction false} NothingAfterStop(s: Cache, es: seq<Event>, s': Cache, i: nat, revision: nat)
    requires s.closed && Runs(s, es, s')
    ensures s'.closed && s'.stored == s.stored && !AllowsAudio(s', revision) && TookBefore(s, s', i)
  {
    if es != [] {
      var pre, e := es[..|es| - 1], es[|es| - 1];
      var m :| Runs(s, pre, m) && Steps(m, e, s');
      NothingAfterStop(s, pre, m, i, revision);
      ClosedStep(m, e, i);
    }
  }

  // --------------------------------------------------------------------- the cache object

  datatype Found = Closed | Hit(value: Value) | Join(lookup: nat) | Own(lookup: nat)

  /** peerInputPermissions: its locked sections. */
  class Permissions {
    var closed: bool
    var valid: bool
    var value: Value
    var waiting: Option<nat>
    /** Numbers the channels that waiting callers wait on. */
    var nextLookup: nat
    ghost var revision: nat
    ghost var clock: nat
    ghost var callers: map<nat, Phase>
    ghost var stored: map<nat, Stored>

    ghost function View(): Cache
      reads this
    {
      Cache(closed, valid, value, waiting, revision, clock, callers, nextLookup, stored)
    }

    ghost predicate Valid()
      reads this
    {
      Inv(View())
    }

    constructor ()
      ensures Valid() && View() == Start()
    {
      closed, valid, value, waiting, nextLookup := false, false, Value(0, false, 0, "", false, 0), None, 0;
      revision, clock, callers, stored := 0, 0, map[], map[];
    }

    /** Head of the loop: the caller gets the cached value, joins the lookup under way or
        makes its own. */
    method LooksUp(ghost i: nat, rev: nat, refresh: bool) returns (f: Found)
      requires Valid() && i in callers && callers[i] == Asks(rev, refresh)
      modifies this
      ensures Valid() && View() == Step(old(View()), Looks(i))
      ensures f.Hit? <==> !old(closed) && !refresh && old(valid) && old(value).revision == rev
      ensures f.Hit? ==> f.value == old(value) && callers[i] == Holds(f.value)
      ensures f.Own? || f.Join? ==> (f.Own? <==> old(waiting).None?)
      ensures f.Own? ==> Making(callers[i]) == Some(f.lookup) == waiting
      ensures f.Join? ==> waiting == Some(f.lookup) == old(waiting) && callers[i] == Waits(rev, f.lookup)
      ensures f.Closed? <==> old(closed)
    {
      StepKeeps(View(), Looks(i));
      f := Find(i, rev, refresh);
    }

    method Find(ghost i: nat, rev: nat, refresh: bool) returns (f: Found)
      modifies this
      ensures View() == Look(old(View()), i, rev, refresh)
      ensures f.Hit? <==> !old(closed) && !refresh && old(valid) && old(value).revision == rev
      ensures f.Hit? ==> f.value == old(value) && callers[i] == Holds(f.value)
      ensures f.Own? || f.Join? ==> (f.Own? <==> old(waiting).None?)
      ensures f.Own? ==> Making(callers[i]) == Some(f.lookup) == waiting
      ensures f.Join? ==> waiting == Some(f.lookup) == old(waiting) && callers[i] == Waits(rev, f.lookup)
      ensures f.Closed? <==> old(closed)
    {
      if closed {
        callers := callers[i := Answered(None, clock)];
        return Closed;
      }
      if !refresh && valid && value.revision == rev {
        callers := callers[i := Holds(value)];
        return Hit(value);
      }
      if waiting.Some? {
        callers := callers[i := Waits(rev, waiting.value)];
        return Join(waiting.value);
      }
      f := Own(nextLookup);
      callers := callers[i := Claims(rev, nextLookup)];
      waiting, nextLookup := Some(nextLookup), nextLookup + 1;
    }

    /** The section after a lookup: None is a denial. `runtime` is the runtime revision now. */
    method Keeps(ghost i: nat, v: Value, runtime: nat) returns (answer: Option<Value>)
      requires Valid() && i in callers && callers[i].HasRead? && callers[i].value == v && runtime == revision
      modifies this
      ensures Valid() && View() == Step(old(View()), Stores(i))
      ensures answer == if !old(closed) && runtime == v.revision then Some(v) else None
    {
      StepKeeps(View(), Stores(i));
      answer := Settle(i, v, callers[i].ended, runtime);
    }

    method Settle(ghost i: nat, v: Value, ghost ended: nat, runtime: nat) returns (answer: Option<Value>)
      requires runtime == revision
      modifies this
      ensures View() == Store(old(View()), i, v, ended)
      ensures answer == if !old(closed) && runtime == v.revision then Some(v) else None
    {
      if !closed && runtime == v.revision {
        value, valid := v, true;
        callers, stored := callers[i := Answered(Some(v), clock)], stored[v.lookup := Stored(v, runtime, ended)];
        answer := Some(v);
      } else {
        callers := callers[i := Answered(None, clock)];
        answer := None;
      }
      waiting := None;
    }

    method Advances(workspace: string, previous: nat, current: nat, runtime: nat)
      requires Valid() && runtime == revision
      modifies this
      ensures Valid() && View() == Step(old(View()), Event.Advances(workspace, previous, current))
      ensures value.checkedAt == old(value).checkedAt && value.lookup == old(value).lookup && valid == old(valid)
    {
      StepKeeps(View(), Event.Advances(workspace, previous, current));
      if valid && value.revision == previous && value.workspace == workspace && !value.denied && runtime == current {
        value := value.(revision := current, active := true);
      }
    }

    method StopsRefresh()
      requires Valid()
      modifies this
      ensures Valid() && View() == Step(old(View()), Stops)
    {
      StepKeeps(View(), Stops);
      closed := true;
    }

    method LetsAudio(rev: nat, now: nat) returns (ok: bool)
      requires Valid() && now == clock
      ensures ok <==> AllowsAudio(View(), rev)
    {
      if closed {
        return false;
      }
      if !valid {
        return true;
      }
      return value.revision == rev && !value.denied && now - value.checkedAt <= MAX_AGE;
    }
  }
}
