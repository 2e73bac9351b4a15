/** The chunks that a realtime stream carries and its routing predicates
    (pkgs/genx/message.go, pkgs/genx/realtime_stream.go). */
module RealtimeTypes {
  import opened Options

  /** A part is text or a blob; whether a blob's MIME type is audio is settled when the
      MIME type is parsed. */
  datatype Part = NoPart | Text(text: string) | Blob(audio: bool, data: seq<nat>)

  datatype Ctrl = Ctrl(streamID: string, streamLabel: string, begins: bool, ends: bool, timestamp: int)

  /** `tag` stands for the fields that the stream passes through untouched. */
  datatype Chunk = Chunk(tag: nat, part: Part, ctrl: Option<Ctrl>) {
    predicate Begins() { ctrl.Some? && ctrl.value.begins }

    predicate Ends() { ctrl.Some? && ctrl.value.ends }

    function Id(): string { if ctrl.Some? then ctrl.value.streamID else "" }

    function Label(): string { if ctrl.Some? then ctrl.value.streamLabel else "" }

    /** A control EOS closes a whole route. */
    predicate ControlEnd() { part.NoPart? && Ends() }

    /** isRealtimeAudioChunk: audio blobs and control EOS. */
    predicate Audio() { if part.NoPart? then Ends() else part.Blob? && part.audio }

    /** Audio that would be heard. */
    predicate Sounding() { part.Blob? && part.audio && part.data != [] }

    function Stamped(ts: int): (c: Chunk)
      ensures c.Id() == Id() && c.Label() == Label() && c.part == part
      ensures c.Begins() == Begins() && c.Ends() == Ends()
    {
      this.(ctrl := Some(if ctrl.Some? then ctrl.value.(timestamp := ts) else Ctrl("", "", false, false, ts)))
    }
  }

  datatype Item = Item(chunk: Chunk, sq: nat, timestamp: int)

  /** The heap order: timestamp, then arrival. */
  predicate Less(a: Item, b: Item) {
    if a.timestamp != b.timestamp then a.timestamp < b.timestamp else a.sq < b.sq
  }

  /** An empty label matches every label. */
  predicate RouteMatches(left: string, right: string) {
    left == "" || right == "" || left == right
  }

  /** The route of chunk `c` is one that the route (id, label name) replaces. */
  predicate Replaces(id: string, name: string, c: Chunk) {
    c.Id() != "" && c.Id() != id && RouteMatches(name, c.Label())
  }
}
