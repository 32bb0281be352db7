/**
 The streaming of one response body: the worker reads the body and posts it in pieces, one piece for
 each credit; the pool buffers the pieces, grants the next credit, and hands them to the consumer.
 */
module TransferModel {
  import opened Lists

  newtype Byte = x: int | 0 <= x < 0x100

  type Bytes = seq<Byte>

  const CHUNK: nat := 524288      // BODY_CHUNK_BYTES
  const SMALL: nat := 65536       // SMALL_BODY_BYTES
  const MAX_CHUNKS: nat := 256
  const COMPACT: nat := 128

  // ---- the pool's side -----------------------------------------------------------------------------

  // `chunks` is consumed from `head`; consumed places are cleared, and now and then cut off.
  datatype Buffer = Buffer(chunks: seq<Option<Bytes>>, head: nat, bytes: nat)

  datatype Flow = Flow(credit: bool, pulling: bool, producerDone: bool, closed: bool)

  // What the receiver has reserved of the two budgets. `grew`: a resize that must only shrink has grown.
  // `primed`: a first credit has been granted.
  datatype Leases = Leases(body: nat, response: nat, grew: bool, primed: bool)

  datatype Ending = Running | Clean | Failed

  datatype Consumer = Consumer(buffer: Buffer, flow: Flow, leases: Leases, delivered: Bytes, ending: Ending)

  const NO_BUFFER := Buffer([], 0, 0)

  const OPENED := Consumer(NO_BUFFER, Flow(false, false, false, false), Leases(CHUNK, 0, false, false), [], Running)

  function Owed(credit: bool): nat {
    if credit then CHUNK else 0
  }

  function Resize(c: Consumer): Consumer {
    var n := c.buffer.bytes + Owed(c.flow.credit);
    c.(leases := Leases(n, n, c.leases.grew || n > c.leases.body || n > c.leases.response, c.leases.primed))
  }

  function Finish(c: Consumer, ending: Ending): Consumer {
    if c.flow.closed then c
    else c.(buffer := NO_BUFFER, flow := c.flow.(closed := true, pulling := false),
            leases := c.leases.(body := 0, response := 0), ending := ending)
  }

  // The first live chunk leaves the buffer.
  function TakeChunk(b: Buffer): (r: Buffer)
    requires b.head < |b.chunks| && b.chunks[b.head].Some? && |b.chunks[b.head].value| <= b.bytes
  {
    var cleared := b.chunks[b.head := None];
    var bytes := b.bytes - |b.chunks[b.head].value|;
    if b.head + 1 == |cleared| then Buffer([], 0, bytes)
    else if b.head + 1 >= COMPACT then Buffer(cleared[b.head + 1..], 0, bytes)
    else Buffer(cleared, b.head + 1, bytes)
  }

  predicate HasChunk(b: Buffer) {
    b.head < |b.chunks| && b.chunks[b.head].Some? && |b.chunks[b.head].value| <= b.bytes
  }

  function Flush(c: Consumer): Consumer {
    if c.flow.closed || !c.flow.pulling then c
    else if HasChunk(c.buffer) then
      Resize(c.(delivered := c.delivered + c.buffer.chunks[c.buffer.head].value, buffer := TakeChunk(c.buffer)))
        .(flow := c.flow.(pulling := false))
    else if c.flow.producerDone then Finish(c, Clean)
    else c
  }

  // `room`: both budgets can take the reservation.
  predicate Grants(c: Consumer, readAhead: nat, room: bool) {
    && !c.flow.closed && !c.flow.producerDone && !c.flow.credit
    && (c.flow.pulling || (c.buffer.bytes + CHUNK <= readAhead && |c.buffer.chunks| - c.buffer.head < MAX_CHUNKS))
    && room
  }

  function Pump(c: Consumer, readAhead: nat, room: bool, posted: bool): Consumer {
    if !Grants(c, readAhead, room) then c
    else
      var n := c.buffer.bytes + CHUNK;
      var d := c.(flow := c.flow.(credit := true), leases := c.leases.(body := n, response := n, primed := true));
      if posted then d else Finish(d, Failed)
  }

  function Stored(c: Consumer, data: Bytes): Consumer {
    Resize(c.(flow := c.flow.(credit := false),
              buffer := c.buffer.(chunks := c.buffer.chunks + [Some(data)], bytes := c.buffer.bytes + |data|)))
  }

  function OnData(c: Consumer, data: Bytes): Consumer {
    Flush(Stored(c, data))
  }

  // The receiver takes an empty error text for no error.
  predicate Heard(error: Option<string>) {
    error.Some? && error.value != ""
  }

  function OnDone(c: Consumer, error: Option<string>): Consumer {
    var d := c.(flow := c.flow.(credit := false));
    if Heard(error) then Finish(d, Failed)
    else Flush(Resize(d.(flow := d.flow.(producerDone := true))))
  }

  function OnDemand(c: Consumer): Consumer {
    Flush(c.(flow := c.flow.(pulling := true)))
  }

  // ---- the worker's side ---------------------------------------------------------------------------

  // Parked waits for a credit; Granted has been woken; Working holds a credit; Reading awaits the body.
  datatype Stage = Parked | Granted | Working | Reading | Ended

  // `current` is what is left of the chunk being cut; `backlog` the probed chunks; `source` the unread ones.
  datatype Content = Content(current: Bytes, backlog: seq<Bytes>, source: seq<Bytes>)

  // `said`: the message with which the producer has ended, if it could post one.
  datatype Producer = Producer(
    content: Content, bytesRead: nat, available: bool, stage: Stage, cancelled: bool, aborted: bool, said: Option<Packet>)

  datatype Packet = Data(bytes: Bytes) | Finished(error: Option<string>)

  // What tenant code throws: a value with a text, or one whose text cannot be had without another throw.
  datatype Thrown = Text(text: string) | NoText

  const MAX_TEXT: nat := 4096
  const CANCELLED_TEXT := "Function body consumer cancelled"
  const ABORTED_TEXT := "Task cancelled"
  const LIMIT_TEXT := "Body exceeded the configured limit"

  function Excerpt(text: string): string {
    if |text| <= MAX_TEXT then text else text[..MAX_TEXT]
  }

  function Wake(p: Producer): Producer {
    if p.stage == Parked then p.(stage := Granted) else p.(available := true)
  }

  function LoopTop(p: Producer): Producer {
    if p.available then p.(available := false, stage := Working) else p.(stage := Parked)
  }

  function Piece(current: Bytes): Bytes {
    if |current| <= CHUNK then current else current[..CHUNK]
  }

  function Rest(current: Bytes): Bytes {
    if |current| <= CHUNK then [] else current[CHUNK..]
  }

  // What the producer posts, and the producer after it.
  datatype Posting = Posting(producer: Producer, packets: seq<Packet>)

  function Cut(p: Producer, current: Bytes): Posting {
    Posting(LoopTop(p.(content := p.content.(current := Rest(current)))), [Data(Piece(current))])
  }

  function Stop(p: Producer, error: Option<string>): Posting {
    Posting(p.(stage := Ended, said := Some(Finished(error))), [Finished(error)])
  }

  // The catch clause: it posts the text, or throws itself, and then only the closing port tells the receiver.
  function Fail(p: Producer, thrown: Thrown): Posting {
    match thrown
    case Text(text) => Stop(p, Some(Excerpt(text)))
    case NoText => Posting(p.(stage := Ended), [])
  }

  function Work(p: Producer): Posting {
    if p.stage != Working then Posting(p, [])
    else if p.aborted then Fail(p, Text(ABORTED_TEXT))
    else if p.cancelled then Fail(p, Text(CANCELLED_TEXT))
    else if p.content.current != [] then Cut(p, p.content.current)
    else if p.content.backlog != [] then
      if p.content.backlog[0] == [] then Posting(p.(content := p.content.(backlog := p.content.backlog[1..])), [])
      else Cut(p.(content := p.content.(backlog := p.content.backlog[1..])), p.content.backlog[0])
    else Posting(p.(stage := Reading), [])
  }

  predicate Exceeds(limit: Option<nat>, n: nat) {
    limit.Some? && n > limit.value
  }

  function ReadChunk(p: Producer, limit: Option<nat>): Posting {
    if p.stage != Reading || p.content.source == [] then Posting(p, [])
    else
      var chunk := p.content.source[0];
      var q := p.(bytesRead := p.bytesRead + |chunk|);
      if p.aborted then Fail(q, Text(ABORTED_TEXT))
      else if Exceeds(limit, q.bytesRead) then Fail(q, Text(LIMIT_TEXT))
      else if chunk == [] then Posting(q.(content := q.content.(source := q.content.source[1..])), [])
      else Cut(q.(content := q.content.(source := q.content.source[1..])), chunk)
  }

  // A cancelled reader reports the end at once.
  function ReadDone(p: Producer): Posting {
    if p.stage != Reading || !(p.content.source == [] || p.cancelled) then Posting(p, [])
    else if p.aborted then Fail(p, Text(ABORTED_TEXT))
    else Stop(p, None)
  }

  // ---- both sides and the port between them ----------------------------------------------------------

  datatype Setup = Setup(readAhead: nat, limit: Option<nat>)

  datatype Transfer = Transfer(consumer: Consumer, producer: Producer, pulls: nat, packets: seq<Packet>)

  datatype Event =
    | PacketArrives(room: bool, posted: bool)
    | Demand(room: bool, posted: bool)
    | BudgetFreed(room: bool, posted: bool)
    | GiveUp                                  // consumer cancel, abort, idle timeout, failure, closed port
    | PullArrives
    | Resume
    | ProducerWorks
    | ChunkRead
    | EndRead
    | ReadFails(thrown: Thrown)
    | SignalAborts
    | ProducerSeesClose

  function Pumped(t: Transfer, c: Consumer, s: Setup, room: bool, posted: bool): Transfer {
    t.(consumer := Pump(c, s.readAhead, room, posted),
       pulls := if Grants(c, s.readAhead, room) && posted then t.pulls + 1 else t.pulls)
  }

  function Sent(t: Transfer, r: Posting): Transfer {
    t.(producer := r.producer, packets := t.packets + r.packets)
  }

  function Arrive(t: Transfer, s: Setup, m: Packet, room: bool, posted: bool): Transfer {
    if t.consumer.flow.closed || t.consumer.flow.producerDone then t
    else
      match m
      case Data(bytes) => Pumped(t, OnData(t.consumer, bytes), s, room, posted)
      case Finished(error) => t.(consumer := OnDone(t.consumer, error))
  }

  function Step(t: Transfer, s: Setup, e: Event): Transfer {
    match e
    case PacketArrives(room, posted) =>
      if t.packets == [] then t else Arrive(t.(packets := t.packets[1..]), s, t.packets[0], room, posted)
    case Demand(room, posted) =>
      if t.consumer.flow.closed || t.consumer.flow.pulling then t
      else Pumped(t, OnDemand(t.consumer), s, room, posted)
    case BudgetFreed(room, posted) => Pumped(t, t.consumer, s, room, posted)
    case GiveUp => t.(consumer := Finish(t.consumer, Failed))
    case PullArrives => if t.pulls == 0 then t else t.(pulls := t.pulls - 1, producer := Wake(t.producer))
    case Resume =>
      if t.producer.stage == Granted then t.(producer := t.producer.(available := false, stage := Working)) else t
    case ProducerWorks => Sent(t, Work(t.producer))
    case ChunkRead => Sent(t, ReadChunk(t.producer, s.limit))
    case EndRead => Sent(t, ReadDone(t.producer))
    case ReadFails(thrown) => if t.producer.stage == Reading then Sent(t, Fail(t.producer, thrown)) else t
    case SignalAborts => t.(producer := Wake(t.producer.(cancelled := true, aborted := true)))
    case ProducerSeesClose =>
      if t.consumer.flow.closed || t.consumer.flow.producerDone then t.(producer := Wake(t.producer.(cancelled := true)))
      else t
  }

  function Run(t: Transfer, s: Setup, es: seq<Event>): Transfer
    decreases es
  {
    if es == [] then t else Run(Step(t, s, es[0]), s, es[1..])
  }

  // The transfer as `prepareResponseBody` starts it: nothing sent, the first credit not yet granted.
  function Start(content: Content, bytesRead: nat, s: Setup, room: bool, posted: bool): Transfer {
    Pumped(Transfer(OPENED, Producer(content, bytesRead, false, Parked, false, false, None), 0, []), OPENED, s, room, posted)
  }

  // ---- contents ----------------------------------------------------------------------------------------

  function Flat(chunks: seq<Bytes>): Bytes {
    if chunks == [] then [] else chunks[0] + Flat(chunks[1..])
  }

  function Live(chunks: seq<Option<Bytes>>): Bytes {
    if chunks == [] then [] else (if chunks[0].Some? then chunks[0].value else []) + Live(chunks[1..])
  }

  function InFlight(packets: seq<Packet>): Bytes {
    if packets == [] then []
    else (if packets[0].Data? then packets[0].bytes else []) + InFlight(packets[1..])
  }

  function Unsent(c: Content): Bytes {
    c.current + Flat(c.backlog) + Flat(c.source)
  }
}
