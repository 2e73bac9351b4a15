/** Which lookups are under way and which failures are cached, told from the events
    (pkgs/gizclaw/registration_token_security_policy.go). */
module AdmissionStories {
  import opened Collections
  import opened Admission

  /** The states that a run passes through. */
  ghost predicate Trace(es: seq<Event>, ss: seq<Policy>) {
    && |ss| == |es| + 1 && ss[0] == Start()
    && forall n :: 0 <= n < |es| ==> Steps(ss[n], es[n], ss[n + 1])
  }

  lemma {:induction false} TraceRuns(es: seq<Event>, ss: seq<Policy>, n: nat)
    requires Trace(es, ss) && n <= |es|
    ensures Runs(Start(), es[..n], ss[n]) && Inv(ss[n])
  {
    if n > 0 {
      TraceRuns(es, ss, n - 1);
      assert es[..n][..n - 1] == es[..n - 1] && es[..n][n - 1] == es[n - 1];
      assert Steps(ss[n - 1], es[n - 1], ss[n]);
      RunKeeps(Start(), es[..n], ss[n]);
    }
  }

  // ------------------------------------------------------------------------------ in flight

  /** A lookup of `d` is asked for, and neither a lookup of `d` is under way, nor a failure of it
      cached and unexpired, nor is the budget of the window or the number of lookups used up. */
  predicate Starts(s: Policy, e: Event, d: string) {
    && e.Begins? && e.digest == d && d !in s.inFlight && (d in s.negative ==> s.negative[d] <= e.now)
    && (if e.now < s.windowEnd then s.failures else 0) + |s.inFlight| < 64 && |s.inFlight| < 8
  }

  ghost function Starting(es: seq<Event>, ss: seq<Policy>, d: string): int -> bool
    requires |ss| == |es| + 1
  {
    n => 0 <= n < |es| && Starts(ss[n], es[n], d)
  }

  /** The events that do not finish the lookup of `d`. */
  ghost function Unfinished(es: seq<Event>, d: string): int -> bool {
    n => 0 <= n < |es| && !(es[n].Finishes? && es[n].digest == d)
  }

  lemma StepInFlight(s: Policy, e: Event, d: string)
    requires Inv(s) && Possible(s, e)
    ensures d in Step(s, e).inFlight <==> Starts(s, e, d) || (d in s.inFlight && !(e.Finishes? && e.digest == d))
  {
    if e.Begins? && e.digest == d && d !in s.inFlight {
      BeginsIff(s, d, e.now);
    }
  }

  /** In every run the lookups under way are exactly those that were started and have not
      finished. */
  lemma {:induction false} InFlightIsTold(es: seq<Event>, ss: seq<Policy>, n: nat, d: string)
    requires Trace(es, ss) && n <= |es|
    ensures d in ss[n].inFlight <==> Ever(Starting(es, ss, d), Unfinished(es, d), n)
  {
    if n > 0 {
      InFlightIsTold(es, ss, n - 1, d);
      TraceRuns(es, ss, n - 1);
      SinceGrows(Starting(es, ss, d), Unfinished(es, d), n - 1);
      assert Steps(ss[n - 1], es[n - 1], ss[n]);
      StepInFlight(ss[n - 1], es[n - 1], d);
    }
  }

  // -------------------------------------------------------------------------------- the cache

  /** A lookup of `d` failed for good, one second before `t`. */
  predicate Fails(e: Event, d: string, t: int) {
    e.Finishes? && e.digest == d && !e.allowed && e.cache && e.now + 1_000_000_000 == t
  }

  /** The event is no lookup that begins at `t` or later, and no further failure of `d`. */
  predicate Spares(e: Event, d: string, t: int) {
    if e.Begins? then e.now < t else !(e.digest == d && !e.allowed && e.cache)
  }

  ghost function Failing(es: seq<Event>, d: string, t: int): int -> bool { n => 0 <= n < |es| && Fails(es[n], d, t) }

  ghost function Sparing(es: seq<Event>, d: string, t: int): int -> bool { n => 0 <= n < |es| && Spares(es[n], d, t) }

  /** The failure of `d` is cached until `t`. */
  predicate CachedUntil(s: Policy, d: string, t: int) { d in s.negative && s.negative[d] == t }

  lemma StepCached(s: Policy, e: Event, d: string, t: int)
    requires |s.negative| < CACHE_LIMIT
    ensures CachedUntil(Step(s, e), d, t) <==> Fails(e, d, t) || (CachedUntil(s, d, t) && Spares(e, d, t))
  {
  }

  /** In every run: a digest is cached until `t` exactly when a lookup of it failed for good one
      second before `t` and, since then, no lookup was begun at `t` or later and no other one of
      the digest failed. So a failure is cached for one second, and then until the next lookup. */
  lemma {:induction false} CacheIsTold(es: seq<Event>, ss: seq<Policy>, n: nat, d: string, t: int)
    requires Trace(es, ss) && n <= |es|
    ensures CachedUntil(ss[n], d, t) <==> Ever(Failing(es, d, t), Sparing(es, d, t), n)
  {
    if n > 0 {
      CacheIsTold(es, ss, n - 1, d, t);
      TraceRuns(es, ss, n - 1);
      CacheBound(ss[n - 1]);
      SinceGrows(Failing(es, d, t), Sparing(es, d, t), n - 1);
      assert Steps(ss[n - 1], es[n - 1], ss[n]);
      StepCached(ss[n - 1], es[n - 1], d, t);
    }
  }
}
