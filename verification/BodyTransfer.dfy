/** The two sides of a streamed response in place, and the probe that decides whether to stream at all. */
module BodyTransfer {
  import opened Lists
  import opened TransferModel
  import opened BodyBuffers

  // The receiver of `receiveBufferedResponse`: what its closures share. The two leases are kept as the
  // amounts they hold; `room` says whether both budgets can take a reservation.
  class BufferedResponse {
    const readAheadBytes: nat
    var chunks: seq<Option<Bytes>>
    var head: nat
    var bytes: nat
    var credit: bool
    var pulling: bool
    var producerDone: bool
    var closed: bool
    var leases: Leases
    ghost var delivered: Bytes
    ghost var ending: Ending

    ghost function View(): Consumer
      reads this
    {
      Consumer(Buffer(chunks, head, bytes), Flow(credit, pulling, producerDone, closed), leases, delivered, ending)
    }

    constructor (readAheadBytes: nat)
      ensures View() == OPENED && this.readAheadBytes == readAheadBytes
    {
      this.readAheadBytes := readAheadBytes;
      chunks, head, bytes := [], 0, 0;
      credit, pulling, producerDone, closed := false, false, false, false;
      leases, delivered, ending := Leases(CHUNK, 0, false, false), [], Running;
    }

    method Resize()
      modifies `leases
      ensures View() == TransferModel.Resize(old(View()))
    {
      var n := bytes + if credit then CHUNK else 0;
      leases := Leases(n, n, leases.grew || n > leases.body || n > leases.response, leases.primed);
    }

    method Finish(how: Ending)
      modifies this
      ensures View() == TransferModel.Finish(old(View()), how)
    {
      if closed { return; }
      closed := true;
      chunks, head, bytes := [], 0, 0;
      leases := leases.(body := 0, response := 0);
      pulling := false;
      ending := how;
    }

    // The chunk at the head leaves the buffer; spent places are cut off now and then.
    method TakeChunk() returns (chunk: Bytes)
      requires HasChunk(View().buffer)
      modifies `chunks, `head, `bytes
      ensures chunk == old(chunks[head].value) && View() == old(View()).(buffer := TransferModel.TakeChunk(old(View()).buffer))
    {
      chunk := chunks[head].value;
      chunks := chunks[head := None];
      head := head + 1;
      if head == |chunks| {
        chunks, head := [], 0;
      } else if head >= COMPACT {
        chunks, head := chunks[head..], 0;
      }
      bytes := bytes - |chunk|;
    }

    method Flush()
      modifies this
      ensures View() == TransferModel.Flush(old(View()))
    {
      if closed || !pulling { return; }
      hide TransferModel.TakeChunk, TransferModel.Resize, TransferModel.Finish;
      if head < |chunks| && chunks[head].Some? && |chunks[head].value| <= bytes {
        var chunk := TakeChunk();
        delivered := delivered + chunk;
        Resize();
        pulling := false;
      } else if producerDone {
        Finish(Clean);
      }
    }

    // True when a credit has been granted and posted.
    method Pump(room: bool, posted: bool) returns (granted: bool)
      modifies this
      ensures View() == TransferModel.Pump(old(View()), readAheadBytes, room, posted)
      ensures granted == (Grants(old(View()), readAheadBytes, room) && posted)
    {
      granted := false;
      if closed || producerDone || credit { return; }
      if !pulling && (bytes + CHUNK > readAheadBytes || |chunks| - head >= MAX_CHUNKS) { return; }
      if !room { return; }
      var next := bytes + CHUNK;
      leases := leases.(body := next, response := next, primed := true);
      credit := true;
      if posted {
        granted := true;
      } else {
        Finish(Failed);
      }
    }

    method OnMessage(m: Packet, room: bool, posted: bool) returns (granted: bool)
      modifies this
      ensures View() == if old(closed || producerDone) then old(View())
                        else if m.Data? then TransferModel.Pump(OnData(old(View()), m.bytes), readAheadBytes, room, posted)
                        else OnDone(old(View()), m.error)
      ensures granted == (!old(closed || producerDone) && m.Data? && posted
                          && Grants(OnData(old(View()), m.bytes), readAheadBytes, room))
    {
      hide TransferModel.Resize, TransferModel.Flush, TransferModel.Finish, TransferModel.Pump, Grants;
      granted := false;
      if closed || producerDone { return; }
      credit := false;
      match m
      case Data(chunk) =>
        chunks := chunks + [Some(chunk)];
        bytes := bytes + |chunk|;
        Resize();
        Flush();
        granted := Pump(room, posted);
      case Finished(error) =>
        if error.Some? && error.value != "" {
          Finish(Failed);
        } else {
          producerDone := true;
          Resize();
          Flush();
        }
    }

    // The consumer asks for more bytes.
    method Pull(room: bool, posted: bool) returns (granted: bool)
      requires !pulling
      modifies this
      ensures View() == if old(closed) then old(View())
                        else TransferModel.Pump(OnDemand(old(View())), readAheadBytes, room, posted)
      ensures granted == (!old(closed) && posted && Grants(OnDemand(old(View())), readAheadBytes, room))
    {
      hide TransferModel.Flush, TransferModel.Pump, Grants;
      granted := false;
      if closed { return; }
      pulling := true;
      Flush();
      granted := Pump(room, posted);
    }
  }

  // The producer that `prepareResponseBody` returns: its loop cut at every await.
  class BodyProducer {
    var current: Bytes
    var offset: nat
    var backlog: seq<Bytes>      // `small`, then `pending`
    var source: seq<Bytes>       // what the reader will still yield
    var bytesRead: nat
    var available: bool
    var stage: Stage
    var cancelled: bool
    var aborted: bool
    ghost var said: Option<Packet>

    predicate Valid()
      reads `current, `offset
    {
      offset <= |current|
    }

    ghost function View(): Producer
      requires Valid()
      reads this
    {
      Producer(Content(current[offset..], backlog, source), bytesRead, available, stage, cancelled, aborted, said)
    }

    constructor (backlog: seq<Bytes>, source: seq<Bytes>, bytesRead: nat)
      ensures Valid() && View() == Producer(Content([], backlog, source), bytesRead, false, Parked, false, false, None)
    {
      current, offset := [], 0;
      this.backlog, this.source, this.bytesRead := backlog, source, bytesRead;
      available, stage, cancelled, aborted, said := false, Parked, false, false, None;
    }

    method Wake()
      requires Valid()
      modifies `available, `stage
      ensures View() == TransferModel.Wake(old(View()))
    {
      if stage == Parked { stage := Granted; } else { available := true; }
    }

    // The signal, or the port's close, wakes a producer that waits for a credit or for the body.
    method Abort(bySignal: bool)
      requires Valid()
      modifies `cancelled, `aborted, `available, `stage
      ensures View() == TransferModel.Wake(old(View()).(cancelled := true, aborted := bySignal || old(aborted)))
    {
      aborted := aborted || bySignal;
      cancelled := true;
      Wake();
    }

    method LoopTop()
      requires Valid()
      modifies `available, `stage
      ensures View() == TransferModel.LoopTop(old(View()))
    {
      stage := if available then Working else Parked;
      available := false;
    }

    // Posts the next piece of `current`: always a copy, at most one chunk long.
    method Cut() returns (packets: seq<Packet>)
      requires Valid() && offset < |current|
      modifies `offset, `available, `stage
      ensures Valid()
      ensures Posting(View(), packets) == TransferModel.Cut(old(View()), old(current[offset..]))
    {
      var end := if |current| - offset <= CHUNK then |current| else offset + CHUNK;
      var owned := current[offset..end];
      assert owned == Piece(current[offset..]);
      assert current[end..] == Rest(current[offset..]);
      offset := end;
      LoopTop();
      packets := [Data(owned)];
    }

    method Stop(error: Option<string>) returns (packets: seq<Packet>)
      requires Valid()
      modifies `stage, `said
      ensures Posting(View(), packets) == TransferModel.Stop(old(View()), error)
    {
      stage, said := Ended, Some(Finished(error));
      packets := [Finished(error)];
    }

    // The catch clause of the loop; a value without a text makes it throw, and nothing is posted.
    method Fail(thrown: Thrown) returns (packets: seq<Packet>)
      requires Valid()
      modifies `stage, `said
      ensures Posting(View(), packets) == TransferModel.Fail(old(View()), thrown)
    {
      match thrown
      case Text(text) =>
        packets := Stop(Some(if |text| <= MAX_TEXT then text else text[..MAX_TEXT]));
      case NoText =>
        stage := Ended;
        packets := [];
    }

    // One turn of the loop once a credit is at hand.
    method Work() returns (packets: seq<Packet>)
      requires Valid()
      modifies this
      ensures Valid() && Posting(View(), packets) == TransferModel.Work(old(View()))
    {
      hide TransferModel.Fail, TransferModel.LoopTop;
      packets := [];
      if stage != Working { return; }
      if aborted || cancelled {
        packets := Fail(Text(if aborted then ABORTED_TEXT else CANCELLED_TEXT));
        return;
      }
      if offset == |current| {
        if backlog == [] {
          stage := Reading;
          return;
        }
        var next := backlog[0];
        backlog := backlog[1..];
        if next == [] { return; }
        current, offset := next, 0;
        assert current[offset..] == next;
      }
      packets := Cut();
    }

    // The awaited read yields a chunk.
    method OnChunk(limit: Option<nat>) returns (packets: seq<Packet>)
      requires Valid() && offset == |current|
      modifies this
      ensures Valid() && Posting(View(), packets) == ReadChunk(old(View()), limit)
    {
      hide TransferModel.Fail, TransferModel.LoopTop;
      packets := [];
      if stage != Reading || source == [] { return; }
      bytesRead := bytesRead + |source[0]|;
      if aborted || (limit.Some? && bytesRead > limit.value) {
        packets := Fail(Text(if aborted then ABORTED_TEXT else LIMIT_TEXT));
        return;
      }
      var chunk := source[0];
      source := source[1..];
      if chunk == [] { return; }
      current, offset := chunk, 0;
      assert current[offset..] == chunk;
      packets := Cut();
    }

    // The awaited read reports the end of the body, or of a cancelled reader.
    method OnEnd() returns (packets: seq<Packet>)
      requires Valid()
      modifies `stage, `said
      ensures Posting(View(), packets) == ReadDone(old(View()))
    {
      packets := [];
      if stage == Reading && (source == [] || cancelled) {
        if aborted {
          packets := Fail(Text(ABORTED_TEXT));
        } else {
          packets := Stop(None);
        }
      }
    }

    // The awaited read fails.
    method OnReadError(thrown: Thrown) returns (packets: seq<Packet>)
      requires Valid() && stage == Reading
      modifies `stage, `said
      ensures Posting(View(), packets) == TransferModel.Fail(old(View()), thrown)
    {
      packets := Fail(thrown);
    }
  }

  // ---- the probe -------------------------------------------------------------------------------------

  datatype Prepared = Small(bytes: Bytes) | Stream(content: Content, bytesRead: nat) | OverLimit | ReadError

  // `input`: the chunks of the body; `failsAt`: the read that fails, if any. A small body is returned
  // whole; otherwise nothing that was read on the way is missing from what is streamed.
  method ProbeBody(input: seq<Bytes>, failsAt: Option<nat>, limit: Option<nat>, immediate: bool) returns (r: Prepared)
    ensures r.Small? ==> !immediate && r.bytes == Flat(input) && |r.bytes| <= SMALL && !Exceeds(limit, |r.bytes|)
    ensures r.Stream? ==> Unsent(r.content) == Flat(input) && r.content.current == [] && !Exceeds(limit, r.bytesRead)
    ensures r.Stream? ==> r.bytesRead + |Flat(r.content.source)| == |Flat(input)|
    ensures r.Stream? && !immediate ==> |Flat(input)| > SMALL
    ensures r.OverLimit? ==> Exceeds(limit, |Flat(input)|)
    ensures r.ReadError? ==> failsAt.Some? && failsAt.value <= |input|
    ensures immediate ==> r == Stream(Content([], [], input), 0)
  {
    if immediate {
      assert Unsent(Content([], [], input)) == Flat(input);
      return Stream(Content([], [], input), 0);
    }
    var probe := new Byte[SMALL];
    var probeBytes: nat := 0;
    for k := 0 to |input|
      invariant probeBytes <= SMALL && probe[..probeBytes] == Flat(input[..k]) && !Exceeds(limit, probeBytes)
    {
      if failsAt == Some(k) {
        return ReadError;
      }
      FlatTake(input, k);
      var next := input[k];
      var bytesRead := probeBytes + |next|;
      if Exceeds(limit, bytesRead) {
        return OverLimit;
      }
      if bytesRead > SMALL {
        var small := if probeBytes > 0 then [probe[..probeBytes]] else [];
        var content := Content([], small + [next], input[k + 1..]);
        KeptWhole(input, k, probe[..probeBytes], small, next);
        return Stream(content, bytesRead);
      }
      Fill(probe, probeBytes, next, 0, |next|);
      assert next[0..|next|] == next;
      probeBytes := bytesRead;
    }
    assert input[..|input|] == input;
    if failsAt == Some(|input|) {
      return ReadError;
    }
    r := Small(probe[..probeBytes]);
  }

  lemma KeptWhole(input: seq<Bytes>, k: nat, probed: Bytes, small: seq<Bytes>, next: Bytes)
    requires k < |input| && next == input[k] && probed == Flat(input[..k])
    requires small == if probed == [] then [] else [probed]
    ensures Unsent(Content([], small + [next], input[k + 1..])) == Flat(input)
    ensures |probed| + |next| + |Flat(input[k + 1..])| == |Flat(input)|
  {
    FlatTake(input, k);
    assert input == input[..k + 1] + input[k + 1..];
    FlatAppend(input[..k + 1], input[k + 1..]);
    FlatAppend(small, [next]);
    assert [next][1..] == [] && [probed][1..] == [];
    assert Flat(small) == probed;
    assert Flat(small + [next]) == probed + next;
  }
}
