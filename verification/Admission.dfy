/** The admission lookup limiter (pkgs/gizclaw/registration_token_security_policy.go): a
    failure budget per window, a bound on concurrent lookups, one lookup per digest at a time
    and a short negative cache. */
module Admission {
  import opened Collections

  const FAILURE_LIMIT: nat := 64
  const IN_FLIGHT_LIMIT: nat := 8
  const CACHE_LIMIT: nat := 1024
  const WINDOW: nat := 60_000_000_000
  const NEGATIVE_TTL: nat := 1_000_000_000

  /** Times are in nanoseconds. `clock` is the last reading under the lock, and `carried` the
      cached digests that were there when the window opened. */
  datatype Policy = Policy(
    windowEnd: nat, failures: nat, inFlight: set<string>, negative: map<string, nat>,
    clock: nat, carried: set<string>)

  function Start(): (s: Policy) {
    Policy(0, 0, {}, map[], 0, {})
  }

  function Unexpired(negative: map<string, nat>, now: nat): (r: map<string, nat>) {
    map d | d in negative && now < negative[d] :: negative[d]
  }

  /** Opens a new window when the last one is over, and prunes the cache. */
  function Roll(s: Policy, now: nat): (s': Policy) {
    var negative := Unexpired(s.negative, now);
    if now < s.windowEnd then s.(negative := negative, clock := now, carried := s.carried * negative.Keys)
    else s.(windowEnd := now + WINDOW, failures := 0, negative := negative, clock := now, carried := negative.Keys)
  }

  predicate Admits(s: Policy, d: string) {
    && d !in s.negative && d !in s.inFlight
    && s.failures + |s.inFlight| < FAILURE_LIMIT && |s.inFlight| < IN_FLIGHT_LIMIT
  }

  /** beginLookup */
  function Begin(s: Policy, d: string, now: nat): (s': Policy) {
    var s1 := Roll(s, now);
    if Admits(s1, d) then s1.(inFlight := s1.inFlight + {d}) else s1
  }

  /** finishLookup; `victim` is what the eviction would take. */
  function Finish(s: Policy, d: string, allowed: bool, cache: bool, now: nat, victim: string): (s': Policy) {
    var s1 := s.(inFlight := s.inFlight - {d}, clock := now);
    if allowed then s1
    else
      var s2 := s1.(failures := s1.failures + 1);
      if !cache then s2
      else if |s2.negative| >= CACHE_LIMIT
      then s2.(negative := (s2.negative - {victim})[d := now + NEGATIVE_TTL], carried := s2.carried - {victim})
      else s2.(negative := s2.negative[d := now + NEGATIVE_TTL])
  }

  datatype Event =
    | Begins(digest: string, now: nat)
    | Finishes(digest: string, allowed: bool, cache: bool, now: nat, victim: string)

  /** Clock readings do not decrease, and only a lookup under way finishes. */
  ghost predicate Possible(s: Policy, e: Event) {
    e.now >= s.clock && (e.Finishes? ==> e.digest in s.inFlight)
  }

  function Step(s: Policy, e: Event): (s': Policy) {
    match e
    case Begins(d, now) => Begin(s, d, now)
    case Finishes(d, allowed, cache, now, victim) => Finish(s, d, allowed, cache, now, victim)
  }

  // ---------------------------------------------------------------------------- invariants

  /** The budget covers the failures of the window and those still possible. */
  ghost predicate Budgeted(s: Policy) {
    s.failures + |s.inFlight| <= FAILURE_LIMIT && |s.inFlight| <= IN_FLIGHT_LIMIT
  }

  /** A digest is in flight or cached, not both. */
  ghost predicate Separate(s: Policy) { s.inFlight !! s.negative.Keys }

  /** At most 64 digests were carried into the window, they expire in its first second, and
      every other one stands for a failure in this window. */
  ghost predicate Cached(s: Policy) {
    && s.carried <= s.negative.Keys && |s.carried| <= FAILURE_LIMIT && |s.negative.Keys - s.carried| <= s.failures
    && (forall d :: d in s.carried ==> s.negative[d] + WINDOW <= s.windowEnd + NEGATIVE_TTL)
    && (forall d :: d in s.negative ==> s.negative[d] <= s.clock + NEGATIVE_TTL)
  }

  ghost predicate Inv(s: Policy) { Budgeted(s) && Separate(s) && Cached(s) }

  /** When a window ends, what was carried into it has expired. */
  lemma RollKeeps(s: Policy, now: nat)
    requires Inv(s) && now >= s.clock
    ensures Inv(Roll(s, now))
  {
    var s' := Roll(s, now);
    if now < s.windowEnd {
      Fewer(s'.carried, s.carried);
      Fewer(s'.negative.Keys - s'.carried, s.negative.Keys - s.carried);
    } else {
      assert s'.negative.Keys <= s.negative.Keys - s.carried;
      Fewer(s'.negative.Keys, s.negative.Keys - s.carried);
      assert s'.negative.Keys - s'.carried == {};
    }
  }

  lemma BeginKeeps(s: Policy, d: string, now: nat)
    requires Inv(s) && now >= s.clock
    ensures Inv(Begin(s, d, now))
  {
    RollKeeps(s, now);
  }

  lemma CacheBound(s: Policy)
    requires Inv(s)
    ensures |s.negative| <= 2 * FAILURE_LIMIT
  {
    assert s.negative.Keys == s.carried + (s.negative.Keys - s.carried);
    assert |s.negative.Keys| == |s.carried| + |s.negative.Keys - s.carried|;
  }

  lemma FinishKeeps(s: Policy, d: string, allowed: bool, cache: bool, now: nat, victim: string)
    requires Inv(s) && now >= s.clock && d in s.inFlight
    ensures Inv(Finish(s, d, allowed, cache, now, victim))
  {
    CacheBound(s);
    var s' := Finish(s, d, allowed, cache, now, victim);
    FinishBudget(s, d, allowed, s');
    if !allowed && cache {
      FailureCached(s, d, now, s');
    }
  }

  lemma FinishBudget(s: Policy, d: string, allowed: bool, s': Policy)
    requires Budgeted(s) && d in s.inFlight && s'.inFlight == s.inFlight - {d}
    requires s'.failures == if allowed then s.failures else s.failures + 1
    ensures Budgeted(s')
  {
  }

  lemma FailureCached(s: Policy, d: string, now: nat, s': Policy)
    requires Cached(s) && d !in s.negative && now >= s.clock
    requires s' == s.(inFlight := s'.inFlight, clock := now, failures := s.failures + 1,
                      negative := s.negative[d := now + NEGATIVE_TTL])
    ensures Cached(s')
  {
    assert s'.negative.Keys - s'.carried == (s.negative.Keys - s.carried) + {d};
  }

  ghost predicate Runs(s: Policy, es: seq<Event>, s': Policy) {
    if es == [] then s == s'
    else
      var pre, e := es[..|es| - 1], es[|es| - 1];
      exists m :: Runs(s, pre, m) && Steps(m, e, s')
  }

  ghost predicate Steps(s: Policy, e: Event, s': Policy) { Possible(s, e) && s' == Step(s, e) }

  lemma {:induction false} RunKeeps(s: Policy, es: seq<Event>, s': Policy)
    requires Inv(s) && Runs(s, es, s')
    ensures Inv(s') && s.clock <= s'.clock
  {
    if es != [] {
      var pre, e := es[..|es| - 1], es[|es| - 1];
      var m :| Runs(s, pre, m) && Steps(m, e, s');
      RunKeeps(s, pre, m);
      match e
      case Begins(d, now) => BeginKeeps(m, d, now);
      case Finishes(d, allowed, cache, now, victim) => FinishKeeps(m, d, allowed, cache, now, victim);
    }
  }

  /** Over every interleaving of lookups: failures and lookups under way stay within the
      budget, no digest is looked up while it is cached, and the cache stays under 128
      entries, so that its eviction is never reached. */
  lemma RunBounds(es: seq<Event>, s: Policy)
    requires Runs(Start(), es, s)
    ensures s.failures + |s.inFlight| <= 64 && |s.inFlight| <= 8
    ensures s.inFlight !! s.negative.Keys && |s.negative| <= 128 < CACHE_LIMIT
  {
    RunKeeps(Start(), es, s);
    CacheBound(s);
  }

  /** The end of the current window and the number of lookups that failed in it, told from
      the events alone. */
  datatype Tally = Tally(windowEnd: nat, failed: nat)

  function Tallied(es: seq<Event>): (t: Tally) {
    if es == [] then Tally(0, 0)
    else
      var t := Tallied(es[..|es| - 1]);
      match es[|es| - 1]
      case Begins(_, now) => if now >= t.windowEnd then Tally(now + WINDOW, 0) else t
      case Finishes(_, allowed, _, _, _) => if allowed then t else t.(failed := t.failed + 1)
  }

  lemma StepTally(s: Policy, e: Event)
    ensures var s' := Step(s, e);
      Tally(s'.windowEnd, s'.failures) ==
      match e
      case Begins(_, now) => if now >= s.windowEnd then Tally(now + WINDOW, 0) else Tally(s.windowEnd, s.failures)
      case Finishes(_, allowed, _, _, _) => Tally(s.windowEnd, if allowed then s.failures else s.failures + 1)
  {
  }

  lemma {:induction false} TallyExact(es: seq<Event>, s: Policy)
    requires Runs(Start(), es, s)
    ensures Tallied(es) == Tally(s.windowEnd, s.failures)
  {
    if es != [] {
      var pre, e := es[..|es| - 1], es[|es| - 1];
      var m :| Runs(Start(), pre, m) && Steps(m, e, s);
      TallyExact(pre, m);
      StepTally(m, e);
    }
  }

  /** At most 64 lookups fail in a window, and those under way are within that bound. */
  lemma WindowBudget(es: seq<Event>, s: Policy)
    requires Runs(Start(), es, s)
    ensures Tallied(es).failed + |s.inFlight| <= FAILURE_LIMIT
  {
    RunKeeps(Start(), es, s);
    TallyExact(es, s);
  }

  // --------------------------------------------------------------------------- back-off

  /** A lookup starts exactly when its digest is neither under way nor cached and not yet
      expired, and there is room in the budget and among the lookups under way. */
  lemma BeginsIff(s: Policy, d: string, now: nat)
    requires Inv(s) && now >= s.clock && d !in s.inFlight
    ensures var failures := if now < s.windowEnd then s.failures else 0;
      d in Begin(s, d, now).inFlight <==>
      (&& (d in s.negative ==> s.negative[d] <= now)
       && failures + |s.inFlight| < FAILURE_LIMIT && |s.inFlight| < IN_FLIGHT_LIMIT)
  {
  }

  lemma BeginKeepsCached(s: Policy, now: nat, d: string)
    requires d in s.negative && now < s.negative[d]
    ensures d in Roll(s, now).negative && Roll(s, now).negative[d] == s.negative[d]
  {
  }

  lemma StepKeepsCached(s: Policy, e: Event, s': Policy, d: string)
    requires |s.negative| < CACHE_LIMIT && Separate(s) && d in s.negative && Steps(s, e, s') && s'.clock < s.negative[d]
    ensures d in s'.negative && s'.negative[d] == s.negative[d] && d !in s'.inFlight
  {
    if e.Begins? {
      BeginKeepsCached(s, e.now, d);
    }
  }

  /** While a cached failure has not expired, its digest stays cached and is not looked up,
      whatever other lookups do. */
  lemma {:induction false} CachedUntilExpiry(s: Policy, es: seq<Event>, s': Policy, d: string)
    requires Inv(s) && d in s.negative && Runs(s, es, s') && s'.clock < s.negative[d]
    ensures d in s'.negative && s'.negative[d] == s.negative[d] && d !in s'.inFlight
  {
    if es != [] {
      var pre, e := es[..|es| - 1], es[|es| - 1];
      var m :| Runs(s, pre, m) && Steps(m, e, s');
      RunKeeps(s, pre, m);
      ClockRuns(m, e, s');
      CachedUntilExpiry(s, pre, m, d);
      CacheBound(m);
      StepKeepsCached(m, e, s', d);
    }
  }

  lemma ClockRuns(s: Policy, e: Event, s': Policy)
    requires Steps(s, e, s')
    ensures s.clock <= s'.clock
  {
  }

  lemma SmallCache(s: Policy, d: string, allowed: bool, cache: bool, now: nat)
    requires Inv(s) && now >= s.clock && d in s.inFlight
    ensures Inv(Finish(s, d, allowed, cache, now, "")) && |s.negative| < CACHE_LIMIT
  {
    FinishKeeps(s, d, allowed, cache, now, "");
    CacheBound(s);
  }

  // ------------------------------------------------------------------------- the policy

  class TokenPolicy {
    var windowEnd: nat
    var failures: nat
    var inFlight: set<string>
    var negative: map<string, nat>
    ghost var clock: nat
    ghost var carried: set<string>

    ghost function View(): Policy
      reads this
    {
      Policy(windowEnd, failures, inFlight, negative, clock, carried)
    }

    ghost predicate Valid()
      reads this
    {
      Inv(View())
    }

    constructor ()
      ensures Valid() && View() == Start()
    {
      windowEnd, failures, inFlight, negative, clock, carried := 0, 0, {}, map[], 0, {};
    }

    /** The pruning loop. */
    method Prune(now: nat)
      modifies this`negative
      ensures negative == Unexpired(old(negative), now)
    {
      var todo := negative.Keys;
      while todo != {}
        invariant todo <= negative.Keys <= old(negative).Keys
        invariant forall d :: d in negative ==> negative[d] == old(negative)[d]
        invariant forall d :: d in negative && d !in todo ==> now < negative[d]
        invariant forall d :: d in old(negative) && d !in negative ==> old(negative)[d] <= now
        decreases |todo|
      {
        var d :| d in todo;
        todo := todo - {d};
        if now >= negative[d] {
          negative := negative - {d};
        }
      }
    }

    method OpenWindow(now: nat)
      modifies this`windowEnd, this`failures, this`negative, this`clock, this`carried
      ensures View() == Roll(old(View()), now)
    {
      var reset := now >= windowEnd;
      if reset {
        windowEnd, failures := now + WINDOW, 0;
      }
      Prune(now);
      clock, carried := now, if reset then negative.Keys else carried * negative.Keys;
    }

    method BeginLookup(d: string, now: nat) returns (ok: bool)
      requires Valid() && now >= clock
      modifies this
      ensures Valid() && View() == Begin(old(View()), d, now)
      ensures ok <==> d !in old(inFlight) && d in inFlight
    {
      BeginKeeps(View(), d, now);
      OpenWindow(now);
      if d in negative || d in inFlight {
        return false;
      }
      if failures + |inFlight| >= FAILURE_LIMIT || |inFlight| >= IN_FLIGHT_LIMIT {
        return false;
      }
      inFlight := inFlight + {d};
      return true;
    }

    method FinishLookup(d: string, allowed: bool, cache: bool, now: nat)
      requires Valid() && now >= clock && d in inFlight
      modifies this
      ensures Valid() && View() == Finish(old(View()), d, allowed, cache, now, "")
    {
      SmallCache(View(), d, allowed, cache, now);
      RecordOutcome(d, allowed, cache, now);
    }

    /** The cache never reaches the size at which an entry would have to go. */
    method RecordOutcome(d: string, allowed: bool, cache: bool, now: nat)
      requires |negative| < CACHE_LIMIT
      modifies this
      ensures View() == Finish(old(View()), d, allowed, cache, now, "")
    {
      inFlight, clock := inFlight - {d}, now;
      if allowed {
        return;
      }
      failures := failures + 1;
      if cache {
        negative := negative[d := now + NEGATIVE_TTL];
      }
    }
  }
}
