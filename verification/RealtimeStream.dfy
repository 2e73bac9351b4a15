/** The realtime stream (pkgs/genx/realtime_stream.go) as a state machine: chunks are pushed
    with timestamps, reordered, clamped or dropped when late, evicted when they fall out
    of the window, and silenced when a newer stream takes over. */
module RealtimeStreams {
  import opened Options
  import opened RealtimeTypes

  datatype End = Eof | Pipe | Other(code: int)

  /** Durations are in nanoseconds, timestamps in milliseconds. */
  datatype Config = Config(delay: nat, maxDuration: nat)

  /** `emitted` logs what Next has returned. */
  datatype Stream = Stream(
    items: set<Item>, sq: nat, lastEmitted: int, maxSeen: int,
    activeID: string, activeName: string, closed: bool, err: Option<End>, emitted: seq<Item>)

  const MILLI := 1_000_000

  function Start(): (s: Stream) {
    Stream({}, 0, -1, -1, "", "", false, None, [])
  }

  function Window(cfg: Config): (ms: nat) {
    cfg.maxDuration / MILLI
  }

  // ------------------------------------------------------------------ supersession

  /** A control EOS that is queued no later than the BOS `next`. */
  predicate Closes(i: Item, next: Ctrl) {
    i.chunk.ControlEnd() && (next.timestamp <= 0 || i.timestamp <= next.timestamp)
  }

  function ClosedRoutes(items: set<Item>, next: Ctrl): (ids: set<string>) {
    set i | i in items && Closes(i, next) :: i.chunk.Id()
  }

  predicate Superseded(i: Item, next: Ctrl) {
    Replaces(next.streamID, next.streamLabel, i.chunk) && i.chunk.Audio()
  }

  predicate Survives(i: Item, closedRoutes: set<string>, next: Ctrl) {
    Superseded(i, next) ==> i.chunk.Id() in closedRoutes && (i.chunk.Begins() || i.chunk.ControlEnd())
  }

  /** A superseded boundary that carries audio keeps its declaration only. */
  function Trimmed(i: Item, next: Ctrl): (r: Item)
    ensures r.sq == i.sq && r.timestamp == i.timestamp
    ensures r.chunk.Id() == i.chunk.Id() && r.chunk.Label() == i.chunk.Label()
    ensures Superseded(i, next) ==> !r.chunk.Sounding()
    ensures !Superseded(i, next) ==> r == i
  {
    if Superseded(i, next) && i.chunk.part.Blob?
    then i.(chunk := i.chunk.(part := Blob(i.chunk.part.audio, [])))
    else i
  }

  function Kept(items: set<Item>, closedRoutes: set<string>, next: Ctrl): (r: set<Item>) {
    set i | i in items && Survives(i, closedRoutes, next) :: Trimmed(i, next)
  }

  function Surviving(items: set<Item>, next: Ctrl): (r: set<Item>) {
    Kept(items, ClosedRoutes(items, next), next)
  }

  /** The largest of `last` and the timestamps of `items`. */
  ghost predicate IsMaxStamp(m: int, last: int, items: set<Item>) {
    && last <= m && (forall i :: i in items ==> i.timestamp <= m)
    && (m == last || exists i :: i in items && i.timestamp == m)
  }

  lemma {:induction false} MaxStampExists(last: int, items: set<Item>) returns (m: int)
    ensures IsMaxStamp(m, last, items)
    decreases items
  {
    if items == {} {
      m := last;
    } else {
      var x :| x in items;
      var m0 := MaxStampExists(last, items - {x});
      if x.timestamp > m0 {
        m := x.timestamp;
      } else {
        m := m0;
        if m0 != last {
          var i :| i in items - {x} && i.timestamp == m0;
          assert i in items;
        }
      }
    }
  }

  ghost function MaxStamp(last: int, items: set<Item>): (m: int)
    ensures IsMaxStamp(m, last, items)
  {
    assert exists m :: IsMaxStamp(m, last, items) by {
      var m := MaxStampExists(last, items);
    }
    var m :| IsMaxStamp(m, last, items);
    m
  }

  ghost function Supersede(s: Stream, next: Ctrl): (s': Stream) {
    if next.streamID == "" || s.items == {} then s
    else s.(items := Surviving(s.items, next), maxSeen := MaxStamp(s.lastEmitted, Surviving(s.items, next)))
  }

  // -------------------------------------------------------------------------- Push

  function Max(a: int, b: int): int { if a >= b then a else b }

  /** The timestamp of a chunk that brings none. */
  function DefaultStamp(s: Stream, now: nat): (ts: int)
    ensures ts >= 0
    ensures s.lastEmitted >= 0 ==> ts > s.lastEmitted
    ensures s.maxSeen >= 0 ==> ts > s.maxSeen
  {
    var ts := now / MILLI;
    var ts1 := if s.lastEmitted >= 0 && ts <= s.lastEmitted then s.lastEmitted + 1 else ts;
    if s.maxSeen >= 0 && ts1 <= s.maxSeen then s.maxSeen + 1 else ts1
  }

  predicate HasStamp(c: Chunk) { c.ctrl.Some? && c.ctrl.value.timestamp > 0 }

  /** Only the active stream has its late chunks moved up instead of dropped. */
  predicate Clamps(s: Stream, c: Chunk) {
    c.ctrl.Some? && s.activeID != "" && c.ctrl.value.streamID == s.activeID
  }

  predicate Silenced(s: Stream, c: Chunk) {
    c.ctrl.Some? && s.activeID != "" && Replaces(s.activeID, s.activeName, c) && c.Audio()
  }

  function Evict(cfg: Config, s: Stream): (s': Stream) {
    if s.maxSeen < 0 || cfg.maxDuration <= 0 then s
    else s.(items := set i | i in s.items && i.timestamp >= s.maxSeen - Window(cfg))
  }

  /** The chunk with the next sequence number, and the newest timestamp seen. */
  function Numbering(s: Stream, c: Chunk, ts: int): (s': Stream) {
    s.(sq := s.sq + 1, items := s.items + {Item(c, s.sq + 1, ts)}, maxSeen := Max(s.maxSeen, ts))
  }

  function Enqueue(cfg: Config, s: Stream, c: Chunk, ts: int): (s': Stream) {
    Evict(cfg, Numbering(s, c, ts))
  }

  datatype Place = Place(chunk: Chunk, timestamp: int)

  /** The timestamp that a chunk is queued under, or None when it is too late. */
  function Placing(s: Stream, now: nat, c: Chunk): (p: Option<Place>)
    ensures p.Some? ==> p.value.timestamp >= 0 && p.value.timestamp >= s.lastEmitted
    ensures p.Some? ==> p.value.chunk.Id() == c.Id() && p.value.chunk.Label() == c.Label() && p.value.chunk.part == c.part
  {
    var ts := if HasStamp(c) then c.ctrl.value.timestamp else DefaultStamp(s, now);
    var c1 := if HasStamp(c) then c else c.Stamped(ts);
    if s.lastEmitted >= 0 && ts < s.lastEmitted then
      if Clamps(s, c1) then Some(Place(c1.Stamped(s.lastEmitted + 1), s.lastEmitted + 1)) else None
    else Some(Place(c1, ts))
  }

  /** Push after routing: queue the chunk in its place, or drop it. */
  function Admit(cfg: Config, s: Stream, now: nat, c: Chunk): (s': Stream) {
    var p := Placing(s, now, c);
    if p.Some? then Enqueue(cfg, s, p.value.chunk, p.value.timestamp) else s
  }

  ghost function Routed(s: Stream, c: Chunk): (s': Stream) {
    if c.Begins() then Supersede(s, c.ctrl.value).(activeID := c.Id(), activeName := c.Label()) else s
  }

  ghost function Push(cfg: Config, s: Stream, now: nat, c: Chunk): (s': Stream) {
    if s.closed || (!c.Begins() && Silenced(s, c)) then s else Admit(cfg, Routed(s, c), now, c)
  }

  // -------------------------------------------------------------------------- Next

  datatype Readout = Emits(item: Item) | Sleeps | Ends(err: End)

  /** dropLateLocked */
  function WithoutLate(s: Stream): (items: set<Item>) {
    set i | i in s.items && !(s.lastEmitted >= 0 && i.timestamp < s.lastEmitted)
  }

  ghost predicate IsLeast(items: set<Item>, x: Item) {
    x in items && forall y :: y in items ==> !Less(y, x)
  }

  predicate Due(cfg: Config, s: Stream, x: Item, now: nat) {
    s.closed || x.timestamp * MILLI + cfg.delay <= now
  }

  /** One round of Next's loop. */
  ghost predicate NextRound(cfg: Config, s: Stream, now: nat, r: Readout, s': Stream) {
    var items := WithoutLate(s);
    if items == {} then
      s' == s.(items := items) && r == if s.closed then Ends(if s.err.Some? then s.err.value else Eof) else Sleeps
    else exists x :: IsLeast(items, x) && ReadsOut(cfg, s.(items := items), x, now, r, s')
  }

  /** What a round does with the first item. */
  predicate ReadsOut(cfg: Config, s: Stream, x: Item, now: nat, r: Readout, s': Stream) {
    if Due(cfg, s, x, now)
    then r == Emits(x) && s' == s.(items := s.items - {x}, lastEmitted := x.timestamp, emitted := s.emitted + [x])
    else r == Sleeps && s' == s
  }

  function Close(s: Stream, err: End): (s': Stream) {
    if s.closed then s else s.(closed := true, err := Some(err))
  }

  // -------------------------------------------------------------------- invariants

  ghost predicate Increasing(xs: seq<Item>) {
    forall i, j :: 0 <= i < j < |xs| ==> Less(xs[i], xs[j])
  }

  /** Arrival numbers identify the queued items. */
  ghost predicate Numbered(s: Stream) {
    && (forall i :: i in s.items ==> 0 < i.sq <= s.sq && i.timestamp >= 0)
    && (forall i, j :: i in s.items && j in s.items && i.sq == j.sq ==> i == j)
  }

  /** What was emitted is in order and every queued item comes after it. */
  ghost predicate Ordered(s: Stream) {
    && Increasing(s.emitted)
    && (if s.emitted == [] then s.lastEmitted == -1
        else var last := s.emitted[|s.emitted| - 1];
          && s.lastEmitted == last.timestamp >= 0 && last.sq <= s.sq
          && forall i :: i in s.items ==> Less(last, i))
  }

  /** Queued timestamps lie in the window that ends at maxSeen and not before the last
      emitted one. */
  ghost predicate InWindow(cfg: Config, s: Stream) {
    && s.lastEmitted <= s.maxSeen && -1 <= s.lastEmitted
    && forall i :: i in s.items ==> Max(s.lastEmitted, s.maxSeen - Window(cfg)) <= i.timestamp <= s.maxSeen
  }

  /** Nothing that would be heard is queued from a stream that the active one replaces. */
  ghost predicate Silent(s: Stream) {
    s.activeID != "" ==>
      forall i :: i in s.items ==> !(Replaces(s.activeID, s.activeName, i.chunk) && i.chunk.Sounding())
  }

  /** maxSeen is the largest timestamp that is queued or was emitted. */
  ghost predicate Peaked(s: Stream) { IsMaxStamp(s.maxSeen, s.lastEmitted, s.items) }

  datatype Law = NumberLaw | OrderLaw | WindowLaw | SilenceLaw | PeakLaw

  ghost predicate Obeys(cfg: Config, s: Stream, law: Law) {
    match law
    case NumberLaw => Numbered(s)
    case OrderLaw => Ordered(s)
    case WindowLaw => InWindow(cfg, s)
    case SilenceLaw => Silent(s)
    case PeakLaw => Peaked(s)
  }

  ghost predicate Inv(cfg: Config, s: Stream) { cfg.maxDuration > 0 && forall law :: Obeys(cfg, s, law) }

  lemma Laws(cfg: Config, s: Stream)
    requires Inv(cfg, s)
    ensures Numbered(s) && Ordered(s) && InWindow(cfg, s) && Silent(s) && Peaked(s)
  {
    assert Obeys(cfg, s, NumberLaw) && Obeys(cfg, s, OrderLaw) && Obeys(cfg, s, WindowLaw) && Obeys(cfg, s, SilenceLaw);
    assert Obeys(cfg, s, PeakLaw);
  }

  lemma SurvivorsNumbered(s: Stream, next: Ctrl, s': Stream)
    requires Numbered(s) && s'.items == Surviving(s.items, next) && s'.sq == s.sq
    ensures Numbered(s')
  {
  }

  lemma SupersedeNumbered(s: Stream, next: Ctrl)
    requires Numbered(s)
    ensures Numbered(Supersede(s, next))
  {
    if !(next.streamID == "" || s.items == {}) {
      SurvivorsNumbered(s, next, Supersede(s, next));
    }
  }

  lemma SurvivorsOrdered(s: Stream, next: Ctrl, s': Stream)
    requires Ordered(s) && s'.items == Surviving(s.items, next)
    requires s'.sq == s.sq && s'.emitted == s.emitted && s'.lastEmitted == s.lastEmitted
    ensures Ordered(s')
  {
  }

  lemma SurvivorsInWindow(cfg: Config, s: Stream, next: Ctrl, s': Stream)
    requires InWindow(cfg, s) && s'.items == Surviving(s.items, next) && s'.lastEmitted == s.lastEmitted
    requires s'.maxSeen == MaxStamp(s.lastEmitted, s'.items)
    ensures InWindow(cfg, s')
  {
    assert s'.maxSeen <= s.maxSeen;
  }

  lemma SurvivorsSilent(s: Stream, next: Ctrl, s': Stream)
    requires s'.items == Surviving(s.items, next) && s'.activeID == next.streamID && s'.activeName == next.streamLabel
    ensures Silent(s')
  {
  }

  lemma SupersedeKeeps(cfg: Config, s: Stream, next: Ctrl)
    requires Inv(cfg, s)
    ensures var s' := Supersede(s, next).(activeID := next.streamID, activeName := next.streamLabel); Inv(cfg, s')
  {
    var s' := Supersede(s, next).(activeID := next.streamID, activeName := next.streamLabel);
    Laws(cfg, s);
    if !(next.streamID == "" || s.items == {}) {
      SurvivorsNumbered(s, next, s');
      SurvivorsOrdered(s, next, s');
      SurvivorsInWindow(cfg, s, next, s');
      SurvivorsSilent(s, next, s');
      assert Peaked(s');
    }
  }

  /** `c` is not audible audio of a stream that the active one replaces. */
  ghost predicate Hushed(s: Stream, c: Chunk) {
    s.activeID != "" ==> !(Replaces(s.activeID, s.activeName, c) && c.Sounding())
  }

  lemma EnqueueNumbered(cfg: Config, s: Stream, c: Chunk, ts: int)
    requires Numbered(s) && ts >= 0
    ensures Numbered(Enqueue(cfg, s, c, ts))
  {
  }

  lemma EnqueueOrdered(cfg: Config, s: Stream, c: Chunk, ts: int)
    requires Ordered(s) && ts >= s.lastEmitted
    ensures Ordered(Enqueue(cfg, s, c, ts))
  {
  }

  lemma EnqueueInWindow(cfg: Config, s: Stream, c: Chunk, ts: int)
    requires cfg.maxDuration > 0 && InWindow(cfg, s) && ts >= 0 && ts >= s.lastEmitted
    ensures InWindow(cfg, Enqueue(cfg, s, c, ts))
  {
  }

  lemma EnqueueSilent(cfg: Config, s: Stream, c: Chunk, ts: int)
    requires Silent(s) && Hushed(s, c)
    ensures Silent(Enqueue(cfg, s, c, ts))
  {
  }

  /** What has the largest timestamp is never evicted. */
  lemma EnqueuePeaks(cfg: Config, s: Stream, c: Chunk, ts: int)
    requires Peaked(s) && ts >= 0
    ensures Peaked(Enqueue(cfg, s, c, ts))
  {
    var s1, s' := Numbering(s, c, ts), Enqueue(cfg, s, c, ts);
    if s1.maxSeen != s1.lastEmitted {
      var i :| i in s1.items && i.timestamp == s1.maxSeen;
      assert i in s'.items;
    }
  }

  lemma EnqueueKeeps(cfg: Config, s: Stream, c: Chunk, ts: int)
    requires Inv(cfg, s) && ts >= 0 && ts >= s.lastEmitted && Hushed(s, c)
    ensures Inv(cfg, Enqueue(cfg, s, c, ts))
  {
    Laws(cfg, s);
    EnqueueNumbered(cfg, s, c, ts);
    EnqueueOrdered(cfg, s, c, ts);
    EnqueueInWindow(cfg, s, c, ts);
    EnqueueSilent(cfg, s, c, ts);
    EnqueuePeaks(cfg, s, c, ts);
  }

  lemma PushKeeps(cfg: Config, s: Stream, now: nat, c: Chunk)
    requires Inv(cfg, s)
    ensures Inv(cfg, Push(cfg, s, now, c))
  {
    if !(s.closed || (!c.Begins() && Silenced(s, c))) {
      var s1 := Routed(s, c);
      if c.Begins() {
        SupersedeKeeps(cfg, s, c.ctrl.value);
      }
      AdmitKeeps(cfg, s1, now, c);
    }
  }

  lemma AdmitKeeps(cfg: Config, s: Stream, now: nat, c: Chunk)
    requires Inv(cfg, s) && Hushed(s, c)
    ensures Inv(cfg, Admit(cfg, s, now, c))
  {
    var p := Placing(s, now, c);
    if p.Some? {
      EnqueueKeeps(cfg, s, p.value.chunk, p.value.timestamp);
    }
  }

  /** dropLateLocked never removes anything. */
  lemma NothingIsLate(cfg: Config, s: Stream)
    requires Inv(cfg, s)
    ensures WithoutLate(s) == s.items
  {
    Laws(cfg, s);
  }

  lemma NextKeeps(cfg: Config, s: Stream, now: nat, r: Readout, s': Stream)
    requires Inv(cfg, s) && NextRound(cfg, s, now, r, s')
    ensures Inv(cfg, s')
    ensures r.Emits? ==> s'.emitted == s.emitted + [r.item] && r.item in s.items
    ensures !r.Emits? ==> s' == s
  {
    NothingIsLate(cfg, s);
    if s.items != {} {
      var x :| IsLeast(s.items, x) && ReadsOut(cfg, s, x, now, r, s');
      if r.Emits? {
        EmitKeeps(cfg, s, x, s');
      }
    }
  }

  lemma EmitKeeps(cfg: Config, s: Stream, x: Item, s': Stream)
    requires Inv(cfg, s) && IsLeast(s.items, x)
    requires s' == s.(items := s.items - {x}, lastEmitted := x.timestamp, emitted := s.emitted + [x])
    ensures Inv(cfg, s')
  {
    Laws(cfg, s);
    forall y | y in s'.items ensures Less(x, y) {
      assert !Less(y, x) && y.sq != x.sq;
    }
    assert Ordered(s');
    assert InWindow(cfg, s');
    EmitPeaks(cfg, s, x, s');
  }

  lemma EmitPeaks(cfg: Config, s: Stream, x: Item, s': Stream)
    requires Peaked(s) && InWindow(cfg, s) && IsLeast(s.items, x)
    requires s'.items == s.items - {x} && s'.lastEmitted == x.timestamp && s'.maxSeen == s.maxSeen
    ensures Peaked(s')
  {
    if s.maxSeen != s.lastEmitted && s.maxSeen != x.timestamp {
      var i :| i in s.items && i.timestamp == s.maxSeen;
      assert i in s'.items;
    }
  }

  // -------------------------------------------------------------------------- runs

  datatype Event = Pushes(now: nat, chunk: Chunk) | Reads(now: nat) | CloseCall(err: End)

  ghost predicate StepTo(cfg: Config, s: Stream, e: Event, s': Stream) {
    match e
    case Pushes(now, c) => s' == Push(cfg, s, now, c)
    case Reads(now) => exists r :: NextRound(cfg, s, now, r, s')
    case CloseCall(err) => s' == Close(s, err)
  }

  ghost predicate Runs(cfg: Config, es: seq<Event>, s: Stream)
    decreases |es|
  {
    if es == [] then s == Start()
    else
      var pre, e := es[..|es| - 1], es[|es| - 1];
      exists m :: Runs(cfg, pre, m) && StepTo(cfg, m, e, s)
  }

  lemma StepKeeps(cfg: Config, s: Stream, e: Event, s': Stream)
    requires Inv(cfg, s) && StepTo(cfg, s, e, s')
    ensures Inv(cfg, s')
  {
    match e
    case Pushes(now, c) => PushKeeps(cfg, s, now, c);
    case Reads(now) =>
      var r :| NextRound(cfg, s, now, r, s');
      NextKeeps(cfg, s, now, r, s');
    case CloseCall(_) => SameKeeps(cfg, s, s');
  }

  lemma SameKeeps(cfg: Config, s: Stream, s': Stream)
    requires Inv(cfg, s) && s' == s.(closed := s'.closed, err := s'.err)
    ensures Inv(cfg, s')
  {
    Laws(cfg, s);
    assert Numbered(s') && Ordered(s') && InWindow(cfg, s') && Silent(s') && Peaked(s');
  }

  lemma StartKeeps(cfg: Config)
    requires cfg.maxDuration > 0
    ensures Inv(cfg, Start())
  {
    var s := Start();
    assert Numbered(s) && Ordered(s) && InWindow(cfg, s) && Silent(s) && Peaked(s);
  }

  /** Over every run of Push, Next and Close: the emitted chunks strictly increase in
      (timestamp, arrival), every queued item is above the last emitted one and in the
      window, and nothing audible of a replaced stream is queued. */
  lemma {:induction false} RunKeeps(cfg: Config, es: seq<Event>, s: Stream)
    requires cfg.maxDuration > 0 && Runs(cfg, es, s)
    ensures Inv(cfg, s)
  {
    if es == [] {
      StartKeeps(cfg);
    } else {
      var m :| Runs(cfg, es[..|es| - 1], m) && StepTo(cfg, m, es[|es| - 1], s);
      RunKeeps(cfg, es[..|es| - 1], m);
      StepKeeps(cfg, m, es[|es| - 1], s);
    }
  }

  /** The last BOS that was accepted, and whether the stream was closed. */
  datatype Boundary = Boundary(closed: bool, id: string, name: string)

  function LastBegin(es: seq<Event>): (b: Boundary) {
    if es == [] then Boundary(false, "", "")
    else
      var b := LastBegin(es[..|es| - 1]);
      match es[|es| - 1]
      case Pushes(_, c) => if !b.closed && c.Begins() then b.(id := c.Id(), name := c.Label()) else b
      case Reads(_) => b
      case CloseCall(_) => b.(closed := true)
  }

  lemma {:induction false} ActiveIsLastBegin(cfg: Config, es: seq<Event>, s: Stream)
    requires Runs(cfg, es, s)
    ensures LastBegin(es) == Boundary(s.closed, s.activeID, s.activeName)
  {
    if es != [] {
      var e := es[|es| - 1];
      var m :| Runs(cfg, es[..|es| - 1], m) && StepTo(cfg, m, e, s);
      ActiveIsLastBegin(cfg, es[..|es| - 1], m);
      StepRoutes(cfg, m, e, s);
    }
  }

  /** The error of the first close. */
  function FirstClose(es: seq<Event>): (err: Option<End>) {
    if es == [] then None
    else
      var err := FirstClose(es[..|es| - 1]);
      if err.None? && es[|es| - 1].CloseCall? then Some(es[|es| - 1].err) else err
  }

  /** The first close decides the error that Next returns in the end. */
  lemma {:induction false} ErrorIsThatOfFirstClose(cfg: Config, es: seq<Event>, s: Stream)
    requires Runs(cfg, es, s)
    ensures s.err == FirstClose(es) && (s.closed <==> s.err.Some?)
  {
    if es != [] {
      var e := es[|es| - 1];
      var m :| Runs(cfg, es[..|es| - 1], m) && StepTo(cfg, m, e, s);
      ErrorIsThatOfFirstClose(cfg, es[..|es| - 1], m);
      StepErrs(cfg, m, e, s);
    }
  }

  lemma StepErrs(cfg: Config, s: Stream, e: Event, s': Stream)
    requires StepTo(cfg, s, e, s')
    ensures s'.err == (if e.CloseCall? && !s.closed then Some(e.err) else s.err) && s'.closed == (s.closed || e.CloseCall?)
  {
    if e.Reads? {
      var r :| NextRound(cfg, s, e.now, r, s');
    }
  }

  /** Only an accepted BOS changes the active stream. */
  lemma StepRoutes(cfg: Config, s: Stream, e: Event, s': Stream)
    requires StepTo(cfg, s, e, s')
    ensures s'.closed == (s.closed || e.CloseCall?)
    ensures if e.Pushes? && !s.closed && e.chunk.Begins()
            then s'.activeID == e.chunk.Id() && s'.activeName == e.chunk.Label()
            else s'.activeID == s.activeID && s'.activeName == s.activeName
  {
    if e.Reads? {
      var r :| NextRound(cfg, s, e.now, r, s');
    }
  }

  /** After a BOS with a stream ID, and until the next BOS, Next returns no audible audio of
      another named stream whose label matches. */
  lemma ReplacedAudioIsNeverRead(cfg: Config, es: seq<Event>, s: Stream, now: nat, r: Readout, s': Stream)
    requires cfg.maxDuration > 0 && Runs(cfg, es, s) && NextRound(cfg, s, now, r, s') && r.Emits?
    requires LastBegin(es).id != ""
    ensures !(Replaces(LastBegin(es).id, LastBegin(es).name, r.item.chunk) && r.item.chunk.Sounding())
  {
    RunKeeps(cfg, es, s);
    ActiveIsLastBegin(cfg, es, s);
    NextKeeps(cfg, s, now, r, s');
    Laws(cfg, s);
  }

  /** What supersession does to each queued item: other items stay as they are; a
      superseded one stays, silenced, exactly when it is a BOS or a control EOS of a route
      whose control EOS is queued no later than the new BOS. */
  lemma SupersedesExactly(cfg: Config, s: Stream, next: Ctrl, i: Item)
    requires Inv(cfg, s) && i in s.items && next.streamID != ""
    ensures var kept := Supersede(s, next).items;
      var closed := exists e :: e in s.items && Closes(e, next) && e.chunk.Id() == i.chunk.Id();
      var stays := closed && (i.chunk.Begins() || i.chunk.ControlEnd());
      && (!Superseded(i, next) ==> i in kept)
      && (Superseded(i, next) && stays ==> Trimmed(i, next) in kept)
      && (Superseded(i, next) && !stays ==> forall r :: r in kept ==> r.sq != i.sq)
      && (forall r :: r in kept ==> exists j :: j in s.items && r == Trimmed(j, next))
  {
    Laws(cfg, s);
    var kept, closedRoutes := Supersede(s, next).items, ClosedRoutes(s.items, next);
    var closed := exists e :: e in s.items && Closes(e, next) && e.chunk.Id() == i.chunk.Id();
    assert closed <==> i.chunk.Id() in closedRoutes;
    assert kept == Surviving(s.items, next);
    if Survives(i, closedRoutes, next) {
      assert Trimmed(i, next) in kept;
    } else {
      forall r | r in kept ensures r.sq != i.sq {
        var j :| j in s.items && Survives(j, closedRoutes, next) && r == Trimmed(j, next);
      }
    }
  }

  /** After routing, a push keeps exactly the queued items that are still in the window. */
  lemma PushRetains(cfg: Config, s: Stream, now: nat, c: Chunk, i: Item)
    requires Inv(cfg, s) && !s.closed && (c.Begins() || !Silenced(s, c)) && i in Routed(s, c).items
    ensures i in Push(cfg, s, now, c).items <==> i.timestamp >= Push(cfg, s, now, c).maxSeen - Window(cfg)
  {
    if c.Begins() {
      SupersedeKeeps(cfg, s, c.ctrl.value);
    }
    Laws(cfg, Routed(s, c));
  }

  /** A chunk that is not too late is queued under its timestamp if that is in the window, and
      nothing else is; a chunk that is too late changes nothing. */
  lemma PushQueues(cfg: Config, s: Stream, now: nat, c: Chunk)
    requires Inv(cfg, s) && !s.closed && (c.Begins() || !Silenced(s, c))
    ensures var p, s' := Placing(Routed(s, c), now, c), Push(cfg, s, now, c);
      && (p.None? ==> s' == Routed(s, c))
      && (p.Some? ==>
            var x := Item(p.value.chunk, s.sq + 1, p.value.timestamp);
            && s'.sq == s.sq + 1 && s'.maxSeen == Max(Routed(s, c).maxSeen, x.timestamp)
            && (x in s'.items <==> x.timestamp >= s'.maxSeen - Window(cfg))
            && forall y :: y in s'.items && y != x ==> y in Routed(s, c).items)
  {
    if c.Begins() {
      SupersedeKeeps(cfg, s, c.ctrl.value);
    }
  }

  /** A chunk is too late exactly when its timestamp is below the last emitted one and it does
      not belong to the active stream; of the active stream it comes right after that one. */
  lemma LateIff(s: Stream, now: nat, c: Chunk)
    ensures Placing(s, now, c).None? <==>
      HasStamp(c) && c.ctrl.value.timestamp < s.lastEmitted && !(s.activeID != "" && c.Id() == s.activeID)
    ensures Placing(s, now, c).Some? && HasStamp(c) && c.ctrl.value.timestamp < s.lastEmitted ==>
      Placing(s, now, c).value.timestamp == s.lastEmitted + 1
  {
  }

  /** `t` is not before the clock, in milliseconds, and above everything queued or emitted. */
  ghost predicate Above(s: Stream, now: nat, t: int) {
    now / MILLI <= t && s.lastEmitted < t && forall i :: i in s.items ==> i.timestamp < t
  }

  /** The timestamp that a chunk is queued under: its own; right after the last emitted one when
      it is late; the first free one when it has none. */
  ghost predicate IsPlace(s: Stream, now: nat, c: Chunk, ts: int) {
    if HasStamp(c) then ts == if c.ctrl.value.timestamp >= s.lastEmitted then c.ctrl.value.timestamp else s.lastEmitted + 1
    else Above(s, now, ts) && forall t :: Above(s, now, t) ==> ts <= t
  }

  /** A chunk is queued under its place and carries that timestamp. */
  lemma PlacesExactly(cfg: Config, s: Stream, now: nat, c: Chunk)
    requires Inv(cfg, s) && Placing(s, now, c).Some?
    ensures var p := Placing(s, now, c).value; IsPlace(s, now, c, p.timestamp) && p.chunk == c.Stamped(p.timestamp)
  {
    Laws(cfg, s);
    if !HasStamp(c) {
      var ts := DefaultStamp(s, now);
      forall t | Above(s, now, t) ensures ts <= t {
        DefaultIsFirst(s, now, t);
      }
    }
  }

  lemma DefaultIsFirst(s: Stream, now: nat, t: int)
    requires Peaked(s) && Above(s, now, t)
    ensures DefaultStamp(s, now) <= t
  {
    assert s.maxSeen < t;
  }

  lemma EmittedBelow(s: Stream, k: nat)
    requires Ordered(s) && k < |s.emitted|
    ensures s.emitted[k].timestamp <= s.lastEmitted
  {
    assert k == |s.emitted| - 1 || Less(s.emitted[k], s.emitted[|s.emitted| - 1]);
  }

  /** A chunk without a timestamp is queued strictly above everything queued or emitted. */
  lemma UnstampedGoesLast(cfg: Config, s: Stream, now: nat, c: Chunk)
    requires Inv(cfg, s) && !s.closed && !HasStamp(c) && (c.Begins() || !Silenced(s, c))
    ensures var s' := Push(cfg, s, now, c);
      exists x :: x in s'.items && x.sq == s.sq + 1 && x.chunk.part == c.part
        && (forall y :: y in Routed(s, c).items ==> y.timestamp < x.timestamp)
        && (forall k :: 0 <= k < |s.emitted| ==> s.emitted[k].timestamp < x.timestamp)
  {
    var s1 := Routed(s, c);
    if c.Begins() {
      SupersedeKeeps(cfg, s, c.ctrl.value);
    }
    PlacesExactly(cfg, s1, now, c);
    UnstampedInWindow(cfg, s1, now, c);
    Laws(cfg, s);
    forall k | 0 <= k < |s.emitted| ensures s.emitted[k].timestamp <= s.lastEmitted {
      EmittedBelow(s, k);
    }
  }

  lemma UnstampedInWindow(cfg: Config, s: Stream, now: nat, c: Chunk)
    requires !HasStamp(c)
    ensures var ts := DefaultStamp(s, now); Item(c.Stamped(ts), s.sq + 1, ts) in Admit(cfg, s, now, c).items
  {
  }

  /** A stamped chunk that is not late is queued, as it is, under its own timestamp, whatever was
      pushed before it, if that timestamp is in the window. */
  lemma StampedQueues(cfg: Config, s: Stream, now: nat, c: Chunk)
    requires Inv(cfg, s) && !s.closed && (c.Begins() || !Silenced(s, c))
    requires HasStamp(c) && c.ctrl.value.timestamp >= s.lastEmitted
    ensures var ts, s' := c.ctrl.value.timestamp, Push(cfg, s, now, c);
      && s'.sq == s.sq + 1 && IsMaxStamp(s'.maxSeen, s'.lastEmitted, Routed(s, c).items + {Item(c, s.sq + 1, ts)})
      && (Item(c, s.sq + 1, ts) in s'.items <==> ts >= s'.maxSeen - Window(cfg))
  {
    if c.Begins() {
      SupersedeKeeps(cfg, s, c.ctrl.value);
    }
    var s1 := Routed(s, c);
    Laws(cfg, s1);
    PeakGrows(s1.maxSeen, s1.lastEmitted, s1.items, Item(c, s.sq + 1, c.ctrl.value.timestamp));
  }

  lemma PeakGrows(m: int, last: int, items: set<Item>, x: Item)
    requires IsMaxStamp(m, last, items)
    ensures IsMaxStamp(Max(m, x.timestamp), last, items + {x})
  {
    var items' := items + {x};
    assert x in items';
    if m != last && m >= x.timestamp {
      var i :| i in items && i.timestamp == m;
      assert i in items';
    }
  }

  /** A push is accepted, that is numbered, exactly when the stream is open, the chunk is not
      audio of a named stream that the last BOS replaces, and it is not a late chunk of a stream
      other than the active one. */
  lemma AcceptsIff(cfg: Config, es: seq<Event>, s: Stream, now: nat, c: Chunk)
    requires cfg.maxDuration > 0 && Runs(cfg, es, s)
    ensures var b, late := LastBegin(es), HasStamp(c) && c.ctrl.value.timestamp < s.lastEmitted;
      Push(cfg, s, now, c).sq == (
        if && !b.closed
           && (c.Begins() ||
               !(b.id != "" && c.Id() != "" && c.Id() != b.id && (b.name == "" || c.Label() == "" || b.name == c.Label()) && c.Audio()))
           && (late ==> c.Id() == (if c.Begins() then c.Id() else b.id) != "")
        then s.sq + 1 else s.sq)
  {
    RunKeeps(cfg, es, s);
    ActiveIsLastBegin(cfg, es, s);
    Laws(cfg, s);
    LateIff(Routed(s, c), now, c);
  }

  /** Before it is closed, Next hands something out exactly when an item is queued whose timestamp
      plus the delay has come, and then the first in (timestamp, arrival). */
  lemma OpenReadsWhenDue(cfg: Config, s: Stream, now: nat, r: Readout, s': Stream)
    requires Inv(cfg, s) && !s.closed && NextRound(cfg, s, now, r, s')
    ensures r.Emits? <==> exists i :: i in s.items && i.timestamp * 1_000_000 + cfg.delay <= now
    ensures r.Emits? ==> r.item in s.items && r.item.timestamp * 1_000_000 + cfg.delay <= now
    ensures r.Emits? ==> forall i :: i in s.items && i != r.item ==> Less(r.item, i)
    ensures r.Emits? || r == Sleeps
  {
    NothingIsLate(cfg, s);
    Laws(cfg, s);
    if s.items != {} {
      var x :| IsLeast(s.items, x) && ReadsOut(cfg, s, x, now, r, s');
      forall i | i in s.items && i != x ensures Less(x, i) {
        assert !Less(i, x) && i.sq != x.sq;
      }
    }
  }

  // ------------------------------------------------------------------------- drain

  /** `k` rounds of Next, at whatever times, lead from `s` to `s'`. */
  ghost predicate Rounds(cfg: Config, s: Stream, k: nat, s': Stream) {
    if k == 0 then s == s'
    else
      var j := k - 1;
      exists m :: Rounds(cfg, s, j, m) && Round(cfg, m, s')
  }

  ghost predicate Round(cfg: Config, s: Stream, s': Stream) {
    exists now, r :: NextRound(cfg, s, now, r, s')
  }

  /** A round on a closed stream emits an item, or reports the error when none is left. */
  lemma ClosedRound(cfg: Config, s: Stream, now: nat, r: Readout, s': Stream)
    requires Inv(cfg, s) && s.closed && NextRound(cfg, s, now, r, s')
    ensures s.items == {} ==> r == Ends(if s.err.Some? then s.err.value else Eof) && s' == s
    ensures s.items != {} ==>
      && r.Emits? && s'.emitted == s.emitted + [r.item] && r.item in s.items && s'.items == s.items - {r.item}
    ensures s'.closed && s'.err == s.err
  {
    NothingIsLate(cfg, s);
  }

  /** The items emitted after the first `n`. */
  ghost function Since(xs: seq<Item>, n: nat): set<Item>
    requires n <= |xs|
  {
    set x | x in xs[n..]
  }

  lemma SinceGrows(xs: seq<Item>, n: nat, x: Item)
    requires n <= |xs|
    ensures Since(xs + [x], n) == Since(xs, n) + {x}
  {
    assert (xs + [x])[n..] == xs[n..] + [x];
  }

  /** What a closed stream held is what it still holds and what it has emitted since. */
  ghost predicate Drained(s: Stream, k: nat, s': Stream) {
    && s'.closed && s'.err == s.err && |s.emitted| <= |s'.emitted| == |s.emitted| + k && |s'.items| == |s.items| - k
    && s.items == s'.items + Since(s'.emitted, |s.emitted|)
  }

  lemma DrainedStep(s: Stream, k: nat, m: Stream, x: Item, s': Stream)
    requires Drained(s, k, m) && x in m.items
    requires s'.closed && s'.err == m.err && s'.emitted == m.emitted + [x] && s'.items == m.items - {x}
    ensures Drained(s, k + 1, s')
  {
    SinceGrows(m.emitted, |s.emitted|, x);
  }

  lemma RoundKeeps(cfg: Config, s: Stream, s': Stream)
    requires Inv(cfg, s) && Round(cfg, s, s')
    ensures Inv(cfg, s')
  {
    var now, r :| NextRound(cfg, s, now, r, s');
    NextKeeps(cfg, s, now, r, s');
  }

  lemma DrainedRound(cfg: Config, s: Stream, k: nat, m: Stream, s': Stream)
    requires Inv(cfg, m) && 0 < k <= |s.items| && Drained(s, k - 1, m) && Round(cfg, m, s')
    ensures Drained(s, k, s')
  {
    var x := ClosedRoundEmits(cfg, m, s');
    DrainedStep(s, k - 1, m, x, s');
  }

  lemma DrainedNone(s: Stream)
    requires s.closed
    ensures Drained(s, 0, s)
  {
  }

  lemma LastRound(cfg: Config, s: Stream, k: nat, s': Stream) returns (m: Stream)
    requires k > 0 && Rounds(cfg, s, k, s')
    ensures Rounds(cfg, s, k - 1, m) && Round(cfg, m, s')
  {
    m :| Rounds(cfg, s, k - 1, m) && Round(cfg, m, s');
  }

  /** A closed stream hands out everything it holds, each item once: k rounds emit k items
      and together with what is left they are what it held. */
  lemma {:induction false} ClosedDrains(cfg: Config, s: Stream, k: nat, s': Stream)
    requires Inv(cfg, s) && s.closed && k <= |s.items| && Rounds(cfg, s, k, s')
    ensures Inv(cfg, s') && Drained(s, k, s')
  {
    if k == 0 {
      DrainedNone(s);
    } else {
      var m := LastRound(cfg, s, k, s');
      ClosedDrains(cfg, s, k - 1, m);
      RoundKeeps(cfg, m, s');
      DrainedRound(cfg, s, k, m, s');
    }
  }

  lemma ClosedRoundEmits(cfg: Config, s: Stream, s': Stream) returns (x: Item)
    requires Inv(cfg, s) && s.closed && |s.items| > 0 && Round(cfg, s, s')
    ensures x in s.items && s'.items == s.items - {x} && s'.emitted == s.emitted + [x]
    ensures s'.closed && s'.err == s.err
  {
    var now, r :| NextRound(cfg, s, now, r, s');
    ClosedRound(cfg, s, now, r, s');
    x := r.item;
  }
}
