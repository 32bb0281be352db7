/** What every interleaving of producer and consumer keeps. */
module TransferProofs {
  import opened Lists
  import opened TransferModel

  function Max(a: nat, b: nat): nat {
    if a < b then b else a
  }

  // ---- the buffer ----------------------------------------------------------------------------------

  predicate IsChunk(b: Bytes) {
    0 < |b| <= CHUNK
  }

  ghost predicate Cleared(chunks: seq<Option<Bytes>>, head: nat) {
    head <= |chunks| && forall i :: 0 <= i < head ==> chunks[i] == None
  }

  ghost predicate Filled(chunks: seq<Option<Bytes>>, head: nat) {
    forall i :: head <= i < |chunks| ==> chunks[i].Some? && IsChunk(chunks[i].value)
  }

  ghost predicate Stock(b: Buffer) {
    && Cleared(b.chunks, b.head) && Filled(b.chunks, b.head)
    && b.bytes == |Live(b.chunks)| && b.head < COMPACT
    && (b.head == |b.chunks| ==> b.chunks == [])
  }

  lemma {:induction false} LiveAppend(a: seq<Option<Bytes>>, b: seq<Option<Bytes>>)
    ensures Live(a + b) == Live(a) + Live(b)
    decreases a
  {
    if a == [] {
      assert a + b == b;
    } else {
      assert (a + b)[1..] == a[1..] + b;
      LiveAppend(a[1..], b);
    }
  }

  lemma {:induction false} LiveCleared(a: seq<Option<Bytes>>)
    requires forall i :: 0 <= i < |a| ==> a[i] == None
    ensures Live(a) == []
    decreases a
  {
    if a != [] {
      LiveCleared(a[1..]);
    }
  }

  lemma LiveOne(b: Bytes)
    ensures Live([Some(b)]) == b
  {
    assert [Some(b)][1..] == [];
  }

  // The chunk at the head is the front of what is live.
  lemma LiveHead(chunks: seq<Option<Bytes>>, head: nat)
    requires Cleared(chunks, head) && head < |chunks| && chunks[head].Some?
    ensures Live(chunks) == chunks[head].value + Live(chunks[head + 1..])
  {
    assert chunks == chunks[..head] + chunks[head..];
    LiveAppend(chunks[..head], chunks[head..]);
    LiveCleared(chunks[..head]);
    assert chunks[head..][1..] == chunks[head + 1..];
  }

  lemma LiveRest(chunks: seq<Option<Bytes>>, head: nat)
    requires Cleared(chunks, head)
    ensures Live(chunks) == Live(chunks[head..])
  {
    assert chunks == chunks[..head] + chunks[head..];
    LiveAppend(chunks[..head], chunks[head..]);
    LiveCleared(chunks[..head]);
  }

  lemma TakeFacts(b: Buffer)
    requires Stock(b) && b.head < |b.chunks|
    ensures HasChunk(b)
    ensures Stock(TakeChunk(b)) && Live(b.chunks) == b.chunks[b.head].value + Live(TakeChunk(b).chunks)
    ensures TakeChunk(b).bytes < b.bytes
    ensures |TakeChunk(b).chunks| - TakeChunk(b).head == |b.chunks| - b.head - 1
  {
    LiveHead(b.chunks, b.head);
    var cleared := b.chunks[b.head := None];
    assert cleared[b.head + 1..] == b.chunks[b.head + 1..];
    LiveRest(cleared, b.head + 1);
  }

  lemma StoreFacts(b: Buffer, data: Bytes)
    requires Stock(b) && IsChunk(data)
    ensures var r := Buffer(b.chunks + [Some(data)], b.head, b.bytes + |data|);
            Stock(r) && Live(r.chunks) == Live(b.chunks) + data
  {
    LiveAppend(b.chunks, [Some(data)]);
    LiveOne(data);
  }

  // ---- the receiver --------------------------------------------------------------------------------

  ghost predicate Leased(c: Consumer, readAhead: nat) {
    if c.leases.primed || c.flow.producerDone then
      c.leases.body == c.leases.response == c.buffer.bytes + Owed(c.flow.credit) <= Max(readAhead, CHUNK)
    else
      c.leases.body == CHUNK && c.leases.response == 0 && c.buffer == NO_BUFFER && !c.flow.credit && c.delivered == []
  }

  ghost predicate Holding(c: Consumer, readAhead: nat) {
    && c.ending == Running && Stock(c.buffer) && Leased(c, readAhead)
    && (c.flow.producerDone ==> !c.flow.credit)
    && |c.buffer.chunks| - c.buffer.head + (if c.flow.credit then 1 else 0) <= MAX_CHUNKS
  }

  ghost predicate Released(c: Consumer) {
    c.ending != Running && c.buffer == NO_BUFFER && c.leases.body == 0 && c.leases.response == 0 && !c.flow.pulling
  }

  // Between events; an unanswered demand means the buffer is empty and the producer not done.
  ghost predicate Receiving(c: Consumer, readAhead: nat) {
    && !c.leases.grew
    && if c.flow.closed then Released(c)
       else Holding(c, readAhead) && (c.flow.pulling ==> c.buffer.chunks == [] && !c.flow.producerDone)
  }

  // What the receiver has delivered and still holds.
  function Taken(c: Consumer): Bytes {
    c.delivered + Live(c.buffer.chunks)
  }

  lemma FinishReceiving(c: Consumer, ending: Ending, readAhead: nat)
    requires !c.leases.grew && (c.flow.closed ==> Released(c)) && ending != Running
    ensures Receiving(Finish(c, ending), readAhead) && Finish(c, ending).delivered == c.delivered
    ensures Finish(c, ending).flow.closed
  {
  }

  lemma FlushReceiving(c: Consumer, readAhead: nat)
    requires !c.leases.grew && !c.flow.closed && Holding(c, readAhead)
    ensures var d := Flush(c);
            && Receiving(d, readAhead) && Taken(d) == Taken(c)
            && d.flow.credit == c.flow.credit && d.flow.producerDone == c.flow.producerDone
            && (d.flow.closed ==> d.ending == Clean && c.flow.producerDone && d.delivered == Taken(c))
  {
    if c.flow.pulling && c.buffer.head < |c.buffer.chunks| {
      TakeFacts(c.buffer);
      hide Stock, Live, HasChunk;
    } else if c.flow.pulling && c.flow.producerDone {
      FinishReceiving(c, Clean, readAhead);
    }
  }

  lemma PumpReceiving(c: Consumer, readAhead: nat, room: bool, posted: bool)
    requires Receiving(c, readAhead)
    ensures var d := Pump(c, readAhead, room, posted);
            && Receiving(d, readAhead) && d.delivered == c.delivered && (!d.flow.closed ==> d.buffer == c.buffer)
            && (d.flow.closed ==> d == c || d.ending == Failed)
            && d.flow.producerDone == c.flow.producerDone
            && (!d.flow.closed ==> d.flow.credit == (c.flow.credit || Grants(c, readAhead, room)))
            && (!d.flow.closed && Grants(c, readAhead, room) ==> posted)
  {
    if c.flow.pulling && !c.flow.closed {
      assert c.buffer.bytes == 0;
    }
  }

  lemma DataReceiving(c: Consumer, data: Bytes, readAhead: nat)
    requires Receiving(c, readAhead) && !c.flow.closed && !c.flow.producerDone && c.flow.credit && IsChunk(data)
    ensures var d := OnData(c, data);
            && Receiving(d, readAhead) && Taken(d) == Taken(c) + data
            && !d.flow.closed && !d.flow.credit && !d.flow.producerDone
  {
    StoreFacts(c.buffer, data);
    StoredHolding(c, data, readAhead);
    hide Stock, Leased, Stored, Flush;
    FlushReceiving(Stored(c, data), readAhead);
  }

  lemma StoredHolding(c: Consumer, data: Bytes, readAhead: nat)
    requires Receiving(c, readAhead) && !c.flow.closed && !c.flow.producerDone && c.flow.credit && IsChunk(data)
    ensures var d := Stored(c, data);
            && !d.leases.grew && Holding(d, readAhead) && Taken(d) == Taken(c) + data
            && !d.flow.closed && !d.flow.credit && !d.flow.producerDone
  {
    StoreFacts(c.buffer, data);
    hide Stock, Live;
  }

  lemma DoneReceiving(c: Consumer, error: Option<string>, readAhead: nat)
    requires Receiving(c, readAhead) && !c.flow.closed && !c.flow.producerDone
    ensures var d := OnDone(c, error);
            && Receiving(d, readAhead)
            && (if Heard(error) then d.flow.closed && d.ending == Failed && d.delivered == c.delivered
                else d.flow.producerDone && Taken(d) == Taken(c) && (d.flow.closed ==> d.delivered == Taken(c)))
  {
    var d := c.(flow := c.flow.(credit := false));
    if !Heard(error) {
      var e := Resize(d.(flow := d.flow.(producerDone := true)));
      assert Holding(e, readAhead) && !e.leases.grew by { hide Stock; }
      hide Stock, Leased, Resize, Flush;
      FlushReceiving(e, readAhead);
    } else {
      FinishReceiving(d, Failed, readAhead);
    }
  }

  lemma DemandReceiving(c: Consumer, readAhead: nat)
    requires Receiving(c, readAhead) && !c.flow.closed && !c.flow.pulling
    ensures var d := OnDemand(c);
            && Receiving(d, readAhead) && Taken(d) == Taken(c)
            && d.flow.credit == c.flow.credit && d.flow.producerDone == c.flow.producerDone
            && (d.flow.closed ==> d.ending == Clean && c.flow.producerDone && d.delivered == Taken(c))
  {
    hide Stock, Flush;
    FlushReceiving(c.(flow := c.flow.(pulling := true)), readAhead);
  }

  // ---- the port ------------------------------------------------------------------------------------

  predicate AtWork(p: Producer) {
    p.stage == Granted || p.stage == Working || p.stage == Reading
  }

  // The producer has ended and could not say so: only the closing port will tell.
  predicate Speechless(p: Producer) {
    p.stage == Ended && p.said == None
  }

  // The credit is in the producer's hands, and lost there if it ended without a word.
  predicate InHand(p: Producer) {
    AtWork(p) || Speechless(p)
  }

  // Where the one credit can be: on its way, kept in `available`, in the producer's hands, or answered.
  function Tokens(t: Transfer): nat {
    t.pulls + (if t.producer.available then 1 else 0) + (if InHand(t.producer) then 1 else 0) + |t.packets|
  }

  // The last word of a producer that has ended: without an error only when all is sent.
  ghost predicate LastWord(p: Producer, m: Packet) {
    p.stage == Ended && p.said == Some(m) && m.Finished? && (m.error == None ==> Unsent(p.content) == [])
  }

  // What may be on its way to the receiver.
  ghost predicate Carried(packets: seq<Packet>, p: Producer, credit: bool) {
    || packets == []
    || (|packets| == 1 && LastWord(p, packets[0]))
    || (|packets| == 1 && packets[0].Data? && credit && IsChunk(packets[0].bytes))
    || (|packets| == 2 && packets[0].Data? && credit && IsChunk(packets[0].bytes) && LastWord(p, packets[1]))
  }

  // A producer that awaits the body has posted all it had; its last word is its end.
  predicate Placed(p: Producer) {
    (p.stage == Reading ==> p.content.current == [] && p.content.backlog == []) && (p.said.Some? ==> p.stage == Ended)
  }

  // A producer never sleeps on a credit it has.
  predicate Alert(p: Producer) {
    p.available ==> p.stage != Parked
  }

  ghost predicate Flowing(t: Transfer) {
    && Placed(t.producer) && Alert(t.producer)
    && (t.producer.said.Some? ==> t.packets != [] && t.packets[|t.packets| - 1].Finished?)
    && Carried(t.packets, t.producer, t.consumer.flow.credit)
    && t.producer.cancelled == t.producer.aborted
    && (!t.producer.cancelled ==> Tokens(t) == if t.consumer.flow.credit then 1 else 0)
  }

  predicate Awaiting(c: Consumer) {
    !c.flow.closed && !c.flow.producerDone
  }

  // The receiver was told of the end, by no error or by one that it does not hear.
  ghost predicate Told(p: Producer) {
    p.said.Some? && LastWord(p, p.said.value) && !Heard(p.said.value.error)
  }

  // Nothing is lost, doubled or reordered between the source and the consumer.
  ghost predicate Conserved(t: Transfer, total: Bytes) {
    if t.consumer.flow.closed then
      && t.consumer.delivered <= total
      && (t.consumer.ending == Clean ==> Told(t.producer) && t.consumer.delivered + Unsent(t.producer.content) == total)
    else if t.consumer.flow.producerDone then
      Told(t.producer) && Taken(t.consumer) + Unsent(t.producer.content) == total
    else Taken(t.consumer) + InFlight(t.packets) + Unsent(t.producer.content) == total
  }

  ghost predicate Sound(t: Transfer, s: Setup, total: Bytes) {
    && Receiving(t.consumer, s.readAhead) && Conserved(t, total)
    && (Awaiting(t.consumer) ==> Flowing(t))
  }

  // ---- the producer --------------------------------------------------------------------------------

  function Hands(p: Producer): nat {
    (if p.available then 1 else 0) + (if InHand(p) then 1 else 0)
  }

  // A posting keeps the credit and the contents; a cancelled producer only ends.
  ghost predicate Honest(p: Producer, r: Posting) {
    && r.producer.cancelled == p.cancelled && r.producer.aborted == p.aborted
    && Hands(p) == Hands(r.producer) + |r.packets|
    && (r.packets == []
        || (|r.packets| == 1 && r.packets[0].Data? && IsChunk(r.packets[0].bytes) && !p.cancelled)
        || (|r.packets| == 1 && LastWord(r.producer, r.packets[0])))
    && (r.producer.said == p.said || (|r.packets| == 1 && r.packets[0].Finished?))
    && InFlight(r.packets) + Unsent(r.producer.content) == Unsent(p.content)
    && (r.packets != [] ==> AtWork(p))
    && (p.stage == Ended ==> r == Posting(p, []))
    && (Placed(p) ==> Placed(r.producer)) && (Alert(p) ==> Alert(r.producer))
    && (r.producer.said == p.said ==> r.packets == [] || r.packets[0].Data?)
  }

  lemma CutHonest(p: Producer, q: Producer, current: Bytes)
    requires AtWork(p) && !p.cancelled && !p.aborted && current != []
    requires q.available == p.available && q.stage == p.stage && q.cancelled == p.cancelled && q.aborted == p.aborted
    requires q.said == p.said
    requires current + Unsent(q.content.(current := [])) == Unsent(p.content)
    ensures Honest(p, Cut(q, current))
  {
    var r := Cut(q, current);
    var rest := Flat(q.content.backlog) + Flat(q.content.source);
    assert Piece(current) + Rest(current) == current;
    assert InFlight(r.packets) == Piece(current) by { assert r.packets[1..] == []; }
    assert Unsent(q.content.(current := [])) == rest;
    assert Unsent(r.producer.content) == Rest(current) + rest;
    assert Piece(current) + (Rest(current) + rest) == current + rest;
  }

  lemma StopHonest(p: Producer, q: Producer, error: Option<string>)
    requires AtWork(p) && p.said == None
    requires q == p.(bytesRead := q.bytesRead)
    requires error == None ==> Unsent(p.content) == []
    ensures Honest(p, Stop(q, error))
  {
    assert Stop(q, error).packets[1..] == [];
    assert InFlight(Stop(q, error).packets) == [];
  }

  lemma FailHonest(p: Producer, q: Producer, thrown: Thrown)
    requires AtWork(p) && p.said == None
    requires q == p.(bytesRead := q.bytesRead)
    ensures Honest(p, Fail(q, thrown))
  {
    match thrown
    case Text(text) => StopHonest(p, q, Some(Excerpt(text)));
    case NoText => assert InFlight([]) + Unsent(q.content) == Unsent(p.content);
  }

  lemma IdleHonest(p: Producer)
    ensures Honest(p, Posting(p, []))
  {
    assert InFlight([]) + Unsent(p.content) == Unsent(p.content);
  }

  // Moving on without posting.
  lemma QuietHonest(p: Producer, q: Producer)
    requires AtWork(p) && AtWork(q) && q.available == p.available && q.cancelled == p.cancelled && q.aborted == p.aborted
    requires q.said == p.said
    requires Unsent(q.content) == Unsent(p.content) && Placed(q)
    ensures Honest(p, Posting(q, []))
  {
    hide Unsent;
    assert InFlight([]) + Unsent(q.content) == Unsent(p.content);
  }

  lemma BacklogStep(c: Content)
    requires c.current == [] && c.backlog != []
    ensures c.backlog[0] + Unsent(c.(current := [], backlog := c.backlog[1..])) == Unsent(c)
  {
    assert Flat(c.backlog) == c.backlog[0] + Flat(c.backlog[1..]);
    assert Unsent(c.(backlog := c.backlog[1..])) == Flat(c.backlog[1..]) + Flat(c.source);
  }

  lemma SourceStep(c: Content)
    requires c.current == [] && c.backlog == [] && c.source != []
    ensures c.source[0] + Unsent(c.(current := [], source := c.source[1..])) == Unsent(c)
  {
    assert Flat(c.source) == c.source[0] + Flat(c.source[1..]);
  }

  lemma CurrentStep(c: Content)
    ensures c.current + Unsent(c.(current := [])) == Unsent(c)
  {
    assert Unsent(c.(current := [])) == Flat(c.backlog) + Flat(c.source);
  }

  lemma WorkHonest(p: Producer)
    requires p.cancelled == p.aborted && Placed(p)
    ensures Honest(p, Work(p))
  {
    hide Honest, Unsent, Cut, Fail, InFlight, Flat;
    var c := p.content;
    if p.stage != Working {
      IdleHonest(p);
    } else if p.aborted {
      FailHonest(p, p, Text(ABORTED_TEXT));
    } else if c.current != [] {
      CurrentStep(c);
      CutHonest(p, p, c.current);
    } else if c.backlog == [] {
      QuietHonest(p, p.(stage := Reading));
    } else {
      BacklogStep(c);
      var q := p.(content := c.(backlog := c.backlog[1..]));
      if c.backlog[0] == [] {
        QuietHonest(p, q);
      } else {
        CutHonest(p, q, c.backlog[0]);
      }
    }
  }

  lemma ReadChunkHonest(p: Producer, limit: Option<nat>)
    requires p.cancelled == p.aborted && Placed(p)
    ensures Honest(p, ReadChunk(p, limit))
  {
    hide Honest, Unsent, Cut, Fail, InFlight, Flat;
    var c := p.content;
    if p.stage != Reading || c.source == [] {
      IdleHonest(p);
    } else {
      var q := p.(bytesRead := p.bytesRead + |c.source[0]|);
      if p.aborted || Exceeds(limit, q.bytesRead) {
        FailHonest(p, q, Text(if p.aborted then ABORTED_TEXT else LIMIT_TEXT));
      } else {
        SourceStep(c);
        var n := q.(content := c.(source := c.source[1..]));
        if c.source[0] == [] {
          QuietHonest(p, n);
        } else {
          CutHonest(p, n, c.source[0]);
        }
      }
    }
  }

  lemma ReadDoneHonest(p: Producer)
    requires p.cancelled == p.aborted && Placed(p)
    ensures Honest(p, ReadDone(p))
  {
    hide Honest, Stop, Fail, InFlight;
    if p.stage != Reading || !(p.content.source == [] || p.cancelled) {
      IdleHonest(p);
    } else if p.aborted {
      FailHonest(p, p, Text(ABORTED_TEXT));
    } else {
      StopHonest(p, p, None);
    }
  }

  lemma ReadFailsHonest(p: Producer, thrown: Thrown)
    requires Placed(p)
    ensures Honest(p, if p.stage == Reading then Fail(p, thrown) else Posting(p, []))
  {
    hide Honest, Fail, InFlight, Unsent;
    if p.stage == Reading {
      FailHonest(p, p, thrown);
    } else {
      IdleHonest(p);
    }
  }

  // ---- every event -----------------------------------------------------------------------------------

  lemma InFlightAppend(t: Transfer, r: Posting)
    requires t.packets == [] || (|t.packets| == 1 && |r.packets| == 1 && r.packets[0].Finished?) || r.packets == []
    ensures InFlight(t.packets + r.packets) == InFlight(t.packets) + InFlight(r.packets)
  {
    if t.packets == [] {
      assert t.packets + r.packets == r.packets;
    } else if r.packets == [] {
      assert t.packets + r.packets == t.packets;
    } else {
      assert (t.packets + r.packets)[1..] == r.packets;
      assert t.packets[1..] == [];
    }
  }

  lemma SentSound(t: Transfer, s: Setup, total: Bytes, r: Posting)
    requires Sound(t, s, total) && Honest(t.producer, r)
    ensures Sound(Sent(t, r), s, total)
  {
    hide Receiving, Unsent, InFlight, Taken;
    if Awaiting(t.consumer) {
      SentFlowing(t, r);
      InFlightAppend(t, r);
      var held, sent := Taken(t.consumer), InFlight(t.packets);
      assert held + (sent + InFlight(r.packets)) + Unsent(r.producer.content)
          == held + sent + (InFlight(r.packets) + Unsent(r.producer.content));
    }
  }

  lemma SentFlowing(t: Transfer, r: Posting)
    requires Flowing(t) && Honest(t.producer, r)
    ensures Flowing(Sent(t, r))
    ensures t.packets == [] || (|t.packets| == 1 && |r.packets| == 1 && r.packets[0].Finished?) || r.packets == []
  {
    hide Unsent, InFlight;
    if r.packets == [] {
      assert t.packets + r.packets == t.packets;
    } else if t.packets == [] {
      assert t.packets + r.packets == r.packets;
    }
  }

  lemma PumpedSound(t: Transfer, s: Setup, total: Bytes, room: bool, posted: bool)
    requires Sound(t, s, total)
    ensures Sound(Pumped(t, t.consumer, s, room, posted), s, total)
  {
    PumpReceiving(t.consumer, s.readAhead, room, posted);
    hide Receiving, Unsent, InFlight, Pump, Live;
  }

  lemma DeliveredIsPrefix(t: Transfer, s: Setup, total: Bytes)
    requires Sound(t, s, total)
    ensures t.consumer.delivered <= total
  {
    hide Receiving, Flowing, Unsent, InFlight, Live;
    var c := t.consumer;
    if Awaiting(c) {
      assert Taken(c) + InFlight(t.packets) + Unsent(t.producer.content)
          == c.delivered + (Live(c.buffer.chunks) + InFlight(t.packets) + Unsent(t.producer.content));
    }
  }

  lemma GiveUpSound(t: Transfer, s: Setup, total: Bytes)
    requires Sound(t, s, total)
    ensures Sound(Step(t, s, GiveUp), s, total)
  {
    DeliveredIsPrefix(t, s, total);
    ReceivingBasics(t.consumer, s.readAhead);
    FinishReceiving(t.consumer, Failed, s.readAhead);
    hide Receiving, Flowing, Unsent, InFlight, Live;
  }

  lemma ReceivingBasics(c: Consumer, readAhead: nat)
    requires Receiving(c, readAhead)
    ensures !c.leases.grew && (c.flow.closed ==> Released(c)) && (c.flow.producerDone && !c.flow.closed ==> !c.flow.pulling)
  {
  }

  lemma DemandSound(t: Transfer, s: Setup, total: Bytes, room: bool, posted: bool)
    requires Sound(t, s, total)
    ensures Sound(Step(t, s, Demand(room, posted)), s, total)
  {
    hide Sound, OnDemand, Pump, Grants;
    if !t.consumer.flow.closed && !t.consumer.flow.pulling {
      DemandedSound(t, s, total);
      PumpedSound(t.(consumer := OnDemand(t.consumer)), s, total, room, posted);
    }
  }

  lemma DemandedSound(t: Transfer, s: Setup, total: Bytes)
    requires Sound(t, s, total) && !t.consumer.flow.closed && !t.consumer.flow.pulling
    ensures Sound(t.(consumer := OnDemand(t.consumer)), s, total)
  {
    DemandReceiving(t.consumer, s.readAhead);
    hide Receiving, Unsent, InFlight, Live, OnDemand;
  }

  lemma DataArrives(t: Transfer, s: Setup, total: Bytes)
    requires Sound(t, s, total) && Awaiting(t.consumer) && t.packets != [] && t.packets[0].Data?
    ensures Sound(t.(packets := t.packets[1..], consumer := OnData(t.consumer, t.packets[0].bytes)), s, total)
  {
    var data := t.packets[0].bytes;
    DataReceiving(t.consumer, data, s.readAhead);
    hide Receiving, Unsent, Taken, OnData;
    assert InFlight(t.packets) == data + InFlight(t.packets[1..]);
    var rest := InFlight(t.packets[1..]) + Unsent(t.producer.content);
    assert Taken(t.consumer) + (data + InFlight(t.packets[1..])) + Unsent(t.producer.content)
        == Taken(t.consumer) + data + InFlight(t.packets[1..]) + Unsent(t.producer.content);
  }

  lemma DoneArrives(t: Transfer, s: Setup, total: Bytes)
    requires Sound(t, s, total) && Awaiting(t.consumer) && t.packets != [] && t.packets[0].Finished?
    ensures Sound(t.(packets := t.packets[1..], consumer := OnDone(t.consumer, t.packets[0].error)), s, total)
  {
    DoneReceiving(t.consumer, t.packets[0].error, s.readAhead);
    DeliveredIsPrefix(t, s, total);
    DoneEnding(t.consumer, t.packets[0].error);
    assert t.packets[1..] == [];
    hide Receiving, Taken, OnDone, Unsent;
    if !Heard(t.packets[0].error) {
      assert InFlight(t.packets) == [];
      assert Taken(t.consumer) + [] == Taken(t.consumer);
    }
  }

  lemma DoneEnding(c: Consumer, error: Option<string>)
    ensures Heard(error) && !c.flow.closed ==> OnDone(c, error).ending == Failed
  {
  }

  lemma PacketSound(t: Transfer, s: Setup, total: Bytes, room: bool, posted: bool)
    requires Sound(t, s, total)
    ensures Sound(Step(t, s, PacketArrives(room, posted)), s, total)
  {
    if t.packets != [] {
      var r := t.(packets := t.packets[1..]);
      if !Awaiting(t.consumer) {
        hide Receiving, Taken, Unsent, Pumped, OnData, OnDone;
      } else if t.packets[0].Data? {
        DataArrives(t, s, total);
        hide Sound, OnData, OnDone, Pump, Grants;
        PumpedSound(r.(consumer := OnData(t.consumer, t.packets[0].bytes)), s, total, room, posted);
      } else {
        DoneArrives(t, s, total);
        hide Sound, OnData, OnDone, Pump, Grants;
      }
    }
  }

  lemma WakingSound(t: Transfer, s: Setup, total: Bytes, e: Event)
    requires Sound(t, s, total)
    requires e == PullArrives || e == Resume || e == SignalAborts || e == ProducerSeesClose
    ensures Sound(Step(t, s, e), s, total)
  {
    hide Receiving, Taken, Unsent, InFlight;
  }

  lemma StepSound(t: Transfer, s: Setup, total: Bytes, e: Event)
    requires Sound(t, s, total)
    ensures Sound(Step(t, s, e), s, total)
  {
    hide Sound, Work, ReadChunk, ReadDone, Fail, Wake, Arrive, Finish, OnDemand, Pumped, Sent;
    match e
    case PacketArrives(room, posted) => PacketSound(t, s, total, room, posted);
    case Demand(room, posted) => DemandSound(t, s, total, room, posted);
    case BudgetFreed(room, posted) => PumpedSound(t, s, total, room, posted);
    case GiveUp => GiveUpSound(t, s, total);
    case ProducerWorks => WorkingSound(t, s, total, e, Work(t.producer));
    case ChunkRead => WorkingSound(t, s, total, e, ReadChunk(t.producer, s.limit));
    case EndRead => WorkingSound(t, s, total, e, ReadDone(t.producer));
    case ReadFails(thrown) => ReadFailsSound(t, s, total, thrown);
    case _ => WakingSound(t, s, total, e);
  }

  lemma WorkingSound(t: Transfer, s: Setup, total: Bytes, e: Event, r: Posting)
    requires Sound(t, s, total)
    requires r == Work(t.producer) || r == ReadChunk(t.producer, s.limit) || r == ReadDone(t.producer)
    ensures Sound(Sent(t, r), s, total)
  {
    hide Work, ReadChunk, ReadDone, Honest, Conserved, Receiving, Carried;
    StaysEnded(t.producer, s.limit);
    if Awaiting(t.consumer) {
      if r == Work(t.producer) {
        WorkHonest(t.producer);
      } else if r == ReadChunk(t.producer, s.limit) {
        ReadChunkHonest(t.producer, s.limit);
      } else {
        ReadDoneHonest(t.producer);
      }
      SentSound(t, s, total, r);
    } else {
      Unheard(t, s, total, r);
    }
  }

  // A producer that has ended does nothing more.
  lemma StaysEnded(p: Producer, limit: Option<nat>)
    ensures p.stage == Ended ==> Work(p) == ReadChunk(p, limit) == ReadDone(p) == Posting(p, [])
  {
  }

  lemma ReadFailsSound(t: Transfer, s: Setup, total: Bytes, thrown: Thrown)
    requires Sound(t, s, total)
    ensures Sound(Step(t, s, ReadFails(thrown)), s, total)
  {
    hide Honest, Conserved, Receiving, Carried, Fail;
    if t.producer.stage == Reading {
      if Awaiting(t.consumer) {
        ReadFailsHonest(t.producer, thrown);
        SentSound(t, s, total, Fail(t.producer, thrown));
      } else {
        Unheard(t, s, total, Fail(t.producer, thrown));
      }
    }
  }

  // Once the receiver is closed or told of the end, the producer cannot change what it has.
  lemma Unheard(t: Transfer, s: Setup, total: Bytes, r: Posting)
    requires Sound(t, s, total) && !Awaiting(t.consumer)
    requires t.producer.stage == Ended ==> r == Posting(t.producer, [])
    ensures Sound(Sent(t, r), s, total)
  {
    hide Receiving, Taken, InFlight, Unsent;
  }
}
