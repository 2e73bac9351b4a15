/** The audio pacer (pkgs/gizclaw/peer_conn.go): an absolute schedule that runs ahead of the
    media clock by up to half a second, gained in steps of 5 ms per packet. Times are in
    nanoseconds. */
module AudioPacers {
  import opened Options

  const FRAME: nat := 20_000_000
  const TARGET: nat := 500_000_000
  const RECOVERY: nat := 5_000_000

  /** A request to send the next packet, at time `now` after `idle` without audio. */
  datatype Call = Call(now: int, idle: int)

  function Min(a: int, b: int): int { if a <= b then a else b }

  /** The lead that `k` packets after the first build into the schedule. */
  function Lead(k: nat): (d: nat)
    ensures d <= TARGET
  {
    Min(5_000_000 * k, TARGET)
  }

  /** The duration of `k` packets. */
  function Audio(k: nat): (d: nat) { 20_000_000 * k }

  class Pacer {
    var next: Option<int>
    var surplus: int
    /** The calls so far. */
    ghost var calls: seq<Call>

    ghost predicate Valid()
      reads this
    {
      if calls == [] then next.None? && surplus == 0
      else next == Some(Deadline(calls)) && surplus == Lead(Since(calls))
    }

    constructor ()
      ensures Valid() && calls == []
    {
      next, surplus, calls := None, 0, [];
    }

    /** The wait until the packet's deadline, which no clock reading but that of the timeline's
        first packet decides. */
    method WaitDuration(now: int, idle: int) returns (wait: int)
      requires Valid()
      modifies this
      ensures Valid() && calls == old(calls) + [Call(now, idle)]
      ensures wait == if Deadline(calls) > now then Deadline(calls) - now else 0
    {
      ghost var before := calls;
      calls := calls + [Call(now, idle)];
      if idle > TARGET {
        next, surplus := None, 0;
      }
      if next.None? {
        SinceStarts(before, Call(now, idle));
        next := Some(now);
        return 0;
      }
      DeadlinesAdvance(before, Call(now, idle));
      SinceGrows(before, Call(now, idle));
      var period := FRAME;
      var deficit := TARGET - surplus;
      if deficit > 0 {
        period := period - Min(deficit, RECOVERY);
      }
      surplus := surplus + FRAME - period;
      next := Some(next.value + period);
      return if next.value - now > 0 then next.value - now else 0;
    }
  }

  /** How many packets the last call is after the first packet of its timeline: the last one
      that came after more than half a second of silence, or the first of all. */
  function Since(calls: seq<Call>): (k: nat)
    requires calls != []
    ensures k < |calls|
  {
    if |calls| == 1 || calls[|calls| - 1].idle > TARGET then 0 else Since(calls[..|calls| - 1]) + 1
  }

  /** Since the timeline began there was no long silence, and it began after one or with the
      first call. */
  lemma {:induction false} SinceSilence(calls: seq<Call>, i: nat)
    requires calls != [] && i < |calls|
    ensures |calls| - Since(calls) <= i ==> calls[i].idle <= TARGET
    ensures i == |calls| - 1 - Since(calls) && i > 0 ==> calls[i].idle > TARGET
  {
    if !(|calls| == 1 || calls[|calls| - 1].idle > TARGET) && i < |calls| - 1 {
      SinceSilence(calls[..|calls| - 1], i);
    }
  }

  lemma SinceStarts(calls: seq<Call>, c: Call)
    requires calls == [] || c.idle > TARGET
    ensures Since(calls + [c]) == 0 && Deadline(calls + [c]) == c.now
  {
    assert (calls + [c])[|calls|] == c;
  }

  lemma SinceGrows(calls: seq<Call>, c: Call)
    requires calls != [] && c.idle <= TARGET
    ensures Since(calls + [c]) == Since(calls) + 1
    ensures Origin(calls + [c]) == Origin(calls)
  {
    var calls' := calls + [c];
    assert calls'[..|calls'| - 1] == calls && calls'[|calls|] == c;
  }

  /** When the packet of the last call is due. */
  function Deadline(calls: seq<Call>): (t: int)
    requires calls != []
  {
    Due(Origin(calls), Since(calls))
  }

  /** When the timeline of the last call began. */
  function Origin(calls: seq<Call>): (t: int)
    requires calls != []
  {
    calls[|calls| - 1 - Since(calls)].now
  }

  /** The schedule of a timeline that begins at `start`. */
  function Due(start: int, k: nat): (t: int) { start + Audio(k) - Lead(k) }

  /** The packets of a timeline were sent no earlier than their waits allowed: the audio sent
      never leads the time since the timeline began by more than 520 ms. */
  lemma LeadIsBounded(calls: seq<Call>, sent: int)
    requires calls != [] && sent >= Deadline(calls)
    ensures var k := Since(calls);
      Audio(k + 1) - (sent - Origin(calls)) <= 520_000_000
  {
  }

  /** After 100 packets sent on time the lead is exactly 520 ms, and it stays there. */
  lemma LeadIsReached(calls: seq<Call>)
    requires calls != [] && Since(calls) >= 100
    ensures var k := Since(calls);
      Audio(k + 1) - (Deadline(calls) - Origin(calls)) == 520_000_000
  {
  }

  /** Lateness does not shift later deadlines: two histories with the same silences, whose
      current timelines begin at the same time, have the same deadline, whatever the other
      clock readings were. */
  lemma {:induction false} LatenessDoesNotShift(a: seq<Call>, b: seq<Call>)
    requires |a| == |b| > 0 && forall i :: 0 <= i < |a| ==> a[i].idle == b[i].idle
    requires a[|a| - 1 - Since(a)].now == b[|a| - 1 - Since(a)].now
    ensures Since(a) == Since(b) && Deadline(a) == Deadline(b)
  {
    SinceByIdle(a, b);
  }

  lemma {:induction false} SinceByIdle(a: seq<Call>, b: seq<Call>)
    requires |a| == |b| > 0 && forall i :: 0 <= i < |a| ==> a[i].idle == b[i].idle
    ensures Since(a) == Since(b)
  {
    if |a| > 1 {
      SinceByIdle(a[..|a| - 1], b[..|b| - 1]);
    }
  }

  /** Successive deadlines of a timeline are 15 ms apart for 100 packets, then 20 ms. */
  lemma DeadlinesAdvance(calls: seq<Call>, c: Call)
    requires calls != [] && c.idle <= TARGET
    ensures Deadline(calls + [c]) == Deadline(calls) + if Since(calls) < 100 then 15_000_000 else 20_000_000
  {
    SinceGrows(calls, c);
    LeadGrows(Origin(calls), Since(calls));
  }

  lemma LeadGrows(start: int, k: nat)
    ensures Due(start, k + 1) == Due(start, k) + if k < 100 then 15_000_000 else 20_000_000
  {
  }
}
