/** What holds of one streamed response in every interleaving of its two sides. */
module TransferTheorems {
  import opened Lists
  import opened TransferModel
  import opened TransferProofs

  lemma {:induction false} RunSound(t: Transfer, s: Setup, total: Bytes, es: seq<Event>)
    requires Sound(t, s, total)
    ensures Sound(Run(t, s, es), s, total)
    decreases es
  {
    if es != [] {
      hide Step, Sound;
      StepSound(t, s, total, es[0]);
      RunSound(Step(t, s, es[0]), s, total, es[1..]);
    }
  }

  // A transfer as it may be found at some moment.
  ghost predicate Reachable(t: Transfer, s: Setup, body: Bytes) {
    exists content: Content, bytesRead: nat, room: bool, posted: bool, es: seq<Event> ::
      Unsent(content) == body && t == Run(Start(content, bytesRead, s, room, posted), s, es)
  }

  lemma StartSound(content: Content, bytesRead: nat, s: Setup, room: bool, posted: bool)
    ensures Sound(Start(content, bytesRead, s, room, posted), s, Unsent(content))
  {
    var t := Transfer(OPENED, Producer(content, bytesRead, false, Parked, false, false, None), 0, []);
    assert Live([]) == [] && InFlight([]) == [];
    assert Taken(t.consumer) + InFlight(t.packets) + Unsent(content) == Unsent(content);
    hide Unsent;
    PumpedSound(t, s, Unsent(content), room, posted);
  }

  lemma ReachableSound(t: Transfer, s: Setup, body: Bytes)
    requires Reachable(t, s, body)
    ensures Sound(t, s, body)
  {
    hide Sound, Run, Start, Unsent;
    var content: Content, bytesRead: nat, room: bool, posted: bool, es: seq<Event> :|
      Unsent(content) == body && t == Run(Start(content, bytesRead, s, room, posted), s, es);
    StartSound(content, bytesRead, s, room, posted);
    RunSound(Start(content, bytesRead, s, room, posted), s, body, es);
  }

  // ---- failures without a text ------------------------------------------------------------------------

  // A read fails with an empty text while something is still to be sent.
  predicate FallsSilent(t: Transfer, e: Event) {
    e == ReadFails(Text("")) && t.producer.stage == Reading && Unsent(t.producer.content) != []
  }

  ghost predicate FailsSilently(t: Transfer, s: Setup, es: seq<Event>) {
    exists i :: 0 <= i < |es| && FallsSilent(Run(t, s, es[..i]), es[i])
  }

  // The producer's last word is an error that the receiver does not hear, and bytes are left.
  predicate EndedSilently(p: Producer) {
    p.stage == Ended && p.said == Some(Finished(Some(""))) && Unsent(p.content) != []
  }

  lemma EndingStep(t: Transfer, s: Setup, e: Event)
    requires t.producer.said.Some? ==> t.producer.stage == Ended
    ensures Step(t, s, e).producer.said.Some? ==> Step(t, s, e).producer.stage == Ended
    ensures EndedSilently(Step(t, s, e).producer) <==> EndedSilently(t.producer) || FallsSilent(t, e)
  {
    hide Flush, Pump, Grants, OnData, OnDone, OnDemand, Finish, Unsent;
    assert forall text: string :: Excerpt(text) == "" <==> text == "";
    hide Excerpt;
    EndingPosts(t.producer, s.limit);
    if e.ProducerWorks? || e.ChunkRead? || e.EndRead? {
      hide Work, ReadChunk, ReadDone;
    }
  }

  // The loop's own turns never end with an empty text.
  lemma EndingPosts(p: Producer, limit: Option<nat>)
    requires p.said.Some? ==> p.stage == Ended
    ensures forall q :: q in {Work(p).producer, ReadChunk(p, limit).producer, ReadDone(p).producer} ==>
              && (q.said.Some? ==> q.stage == Ended)
              && (EndedSilently(q) <==> EndedSilently(p))
  {
    hide Unsent;
  }

  lemma RunLast(t: Transfer, s: Setup, es: seq<Event>)
    requires es != []
    ensures Run(t, s, es) == Step(Run(t, s, es[..|es| - 1]), s, es[|es| - 1])
    decreases es
  {
    hide Step;
    if |es| == 1 {
      assert es[1..] == [] && es[..0] == [];
    } else {
      assert es[1..][..|es| - 2] == es[..|es| - 1][1..];
      RunLast(Step(t, s, es[0]), s, es[1..]);
    }
  }

  lemma {:induction false} SilenceHasACause(t: Transfer, s: Setup, es: seq<Event>)
    requires t.producer.said == None
    ensures Run(t, s, es).producer.said.Some? ==> Run(t, s, es).producer.stage == Ended
    ensures EndedSilently(Run(t, s, es).producer) <==> FailsSilently(t, s, es)
    decreases |es|
  {
    assert !EndedSilently(t.producer);
    hide Step, FallsSilent, EndedSilently;
    if es != [] {
      var n := |es| - 1;
      var r := Run(t, s, es[..n]);
      SilenceHasACause(t, s, es[..n]);
      RunLast(t, s, es);
      EndingStep(r, s, es[n]);
      SilentPrefix(t, s, es);
    }
  }

  lemma SilentPrefix(t: Transfer, s: Setup, es: seq<Event>)
    requires es != []
    ensures FailsSilently(t, s, es)
        <==> FailsSilently(t, s, es[..|es| - 1]) || FallsSilent(Run(t, s, es[..|es| - 1]), es[|es| - 1])
  {
    hide Run, FallsSilent;
    var p := es[..|es| - 1];
    assert forall i :: 0 <= i < |p| ==> p[..i] == es[..i] && p[i] == es[i];
  }

  // ---- what the receiver gets ---------------------------------------------------------------------------

  // The transfer after a run from its start.
  function After(content: Content, bytesRead: nat, s: Setup, room: bool, posted: bool, es: seq<Event>): Transfer {
    Run(Start(content, bytesRead, s, room, posted), s, es)
  }

  lemma AfterFacts(content: Content, bytesRead: nat, s: Setup, room: bool, posted: bool, es: seq<Event>)
    ensures var t := After(content, bytesRead, s, room, posted, es);
            && Sound(t, s, Unsent(content))
            && (EndedSilently(t.producer) <==> FailsSilently(Start(content, bytesRead, s, room, posted), s, es))
  {
    StartSound(content, bytesRead, s, room, posted);
    assert Start(content, bytesRead, s, room, posted).producer.said == None;
    hide Run, Sound, Start, Unsent, EndedSilently;
    RunSound(Start(content, bytesRead, s, room, posted), s, Unsent(content), es);
    SilenceHasACause(Start(content, bytesRead, s, room, posted), s, es);
  }

  // Delivered, buffered, in flight and unsent bytes together are always the body, in its order; once the
  // receiver believes in the end, what it has is the whole body unless a read failed silently.
  lemma NothingLost(content: Content, bytesRead: nat, s: Setup, room: bool, posted: bool, es: seq<Event>)
    requires !After(content, bytesRead, s, room, posted, es).consumer.flow.closed
    ensures var t := After(content, bytesRead, s, room, posted, es);
            var held := t.consumer.delivered + Live(t.consumer.buffer.chunks);
            if t.consumer.flow.producerDone then
              && held + Unsent(t.producer.content) == Unsent(content)
              && (held == Unsent(content) <==> !FailsSilently(Start(content, bytesRead, s, room, posted), s, es))
            else held + InFlight(t.packets) + Unsent(t.producer.content) == Unsent(content)
  {
    AfterFacts(content, bytesRead, s, room, posted, es);
    var t := After(content, bytesRead, s, room, posted, es);
    hide Receiving, Flowing, After, Unsent, FailsSilently, Start;
    if t.consumer.flow.producerDone {
      WholeUnlessLeft(Taken(t.consumer), Unsent(t.producer.content), Unsent(content));
    }
  }

  lemma WholeUnlessLeft(held: Bytes, left: Bytes, body: Bytes)
    requires held + left == body
    ensures held == body <==> left == []
    ensures held <= body
  {
  }

  // A stream that ended cleanly delivered the whole body exactly when no read failed silently; any stream
  // has delivered a prefix of it.
  lemma CleanMeansComplete(content: Content, bytesRead: nat, s: Setup, room: bool, posted: bool, es: seq<Event>)
    ensures var c := After(content, bytesRead, s, room, posted, es).consumer;
            && c.delivered <= Unsent(content)
            && (c.flow.closed && c.ending == Clean ==>
                  (c.delivered == Unsent(content) <==> !FailsSilently(Start(content, bytesRead, s, room, posted), s, es)))
  {
    AfterFacts(content, bytesRead, s, room, posted, es);
    var t := After(content, bytesRead, s, room, posted, es);
    DeliveredIsPrefix(t, s, Unsent(content));
    hide Receiving, Flowing, Taken, After, Unsent, FailsSilently, Start;
    if t.consumer.flow.closed && t.consumer.ending == Clean {
      WholeUnlessLeft(t.consumer.delivered, Unsent(t.producer.content), Unsent(content));
    }
  }

  // If no stream fails with an empty text, a clean end means the whole body.
  lemma TextsMakeCleanComplete(content: Content, bytesRead: nat, s: Setup, room: bool, posted: bool, es: seq<Event>)
    requires forall e :: e in es && e.ReadFails? ==> e.thrown != Text("")
    ensures var c := After(content, bytesRead, s, room, posted, es).consumer;
            c.flow.closed && c.ending == Clean ==> c.delivered == Unsent(content)
  {
    CleanMeansComplete(content, bytesRead, s, room, posted, es);
    NoSilence(Start(content, bytesRead, s, room, posted), s, es);
    hide After, Start, Unsent, FailsSilently;
  }

  lemma NoSilence(t: Transfer, s: Setup, es: seq<Event>)
    requires forall e :: e in es && e.ReadFails? ==> e.thrown != Text("")
    ensures !FailsSilently(t, s, es)
  {
    hide Run;
    assert forall i :: 0 <= i < |es| ==> es[i] in es;
  }

  // The run in which it goes wrong: the only read fails with an empty text, and the consumer sees a body that
  // has ended in good order, one byte short.
  const ONE_BYTE := Content([], [], [[7]])
  const WIDE := Setup(CHUNK, None)
  const EMPTY_TEXT: seq<Event> := [
    Demand(true, true), PullArrives, Resume, ProducerWorks, ReadFails(Text("")), PacketArrives(true, true)]

  const READING := Transfer(
    Consumer(NO_BUFFER, Flow(true, true, false, false), Leases(CHUNK, CHUNK, false, true), [], Running),
    Producer(ONE_BYTE, 0, false, Reading, false, false, None), 0, [])

  lemma ConsumerWaits()
    ensures var t0 := Start(ONE_BYTE, 0, WIDE, true, true);
            var t2 := Step(Step(t0, WIDE, EMPTY_TEXT[0]), WIDE, EMPTY_TEXT[1]);
            Step(Step(t2, WIDE, EMPTY_TEXT[2]), WIDE, EMPTY_TEXT[3]) == READING
  {
    var t0 := Start(ONE_BYTE, 0, WIDE, true, true);
    assert t0.pulls == 1 && t0.consumer == READING.consumer.(flow := Flow(true, false, false, false));
    var t1 := Step(t0, WIDE, EMPTY_TEXT[0]);
    assert t1 == t0.(consumer := READING.consumer);
    var t3 := Step(Step(t1, WIDE, EMPTY_TEXT[1]), WIDE, EMPTY_TEXT[2]);
    assert t3.producer == READING.producer.(stage := Working);
  }

  lemma EmptyTextArrives()
    ensures var t5 := Step(READING, WIDE, EMPTY_TEXT[4]);
            t5.packets == [Finished(Some(""))] && t5.consumer == READING.consumer
    ensures var c := Step(Step(READING, WIDE, EMPTY_TEXT[4]), WIDE, EMPTY_TEXT[5]).consumer;
            c.flow.closed && c.ending == Clean && c.delivered == []
  {
    assert [Finished(Some(""))][1..] == [];
  }

  lemma SilentFailureHappens()
    ensures var c := After(ONE_BYTE, 0, WIDE, true, true, EMPTY_TEXT).consumer;
            c.flow.closed && c.ending == Clean && c.delivered == [] && Unsent(ONE_BYTE) == [7]
  {
    ConsumerWaits();
    EmptyTextArrives();
    assert Flat([[7]]) == [7] by { assert [[7]][1..] == []; }
    hide Step, Start;
    RunSix(Start(ONE_BYTE, 0, WIDE, true, true), WIDE, EMPTY_TEXT);
  }

  lemma RunSix(t: Transfer, s: Setup, es: seq<Event>)
    requires |es| == 6
    ensures Run(t, s, es)
         == Step(Step(Step(Step(Step(Step(t, s, es[0]), s, es[1]), s, es[2]), s, es[3]), s, es[4]), s, es[5])
  {
    hide Step;
    for i := 0 to 6
      invariant Run(t, s, es) == Run(Nth(t, s, es, i), s, es[i..])
    {
      assert es[i..][0] == es[i] && es[i..][1..] == es[i + 1..];
    }
    assert es[6..] == [];
    assert Nth(t, s, es, 2) == Step(Step(t, s, es[0]), s, es[1]);
    assert Nth(t, s, es, 4) == Step(Step(Nth(t, s, es, 2), s, es[2]), s, es[3]);
    assert Nth(t, s, es, 6) == Step(Step(Nth(t, s, es, 4), s, es[4]), s, es[5]);
  }

  // The state after the first `n` events.
  function Nth(t: Transfer, s: Setup, es: seq<Event>, n: nat): Transfer
    requires n <= |es|
  {
    if n == 0 then t else Step(Nth(t, s, es, n - 1), s, es[n - 1])
  }

  // While the receiver waits and nobody has given up there is one credit, and it is in exactly one place.
  lemma OneCredit(t: Transfer, s: Setup, body: Bytes)
    requires Reachable(t, s, body) && Awaiting(t.consumer) && !t.producer.cancelled
    ensures Tokens(t) == if t.consumer.flow.credit then 1 else 0
    ensures t.pulls > 0 ==> !t.producer.available && !AtWork(t.producer)
    ensures t.producer.stage == Granted ==> !t.producer.available
  {
    hide Receiving, Conserved;
    ReachableSound(t, s, body);
  }

  // Pieces are non-empty and at most one chunk long, in flight and in the buffer, which stays short.
  lemma PiecesBounded(t: Transfer, s: Setup, body: Bytes)
    requires Reachable(t, s, body) && Awaiting(t.consumer)
    ensures var b := t.consumer.buffer;
            && (forall i :: b.head <= i < |b.chunks| ==> b.chunks[i].Some? && 0 < |b.chunks[i].value| <= CHUNK)
            && b.head <= |b.chunks| <= b.head + MAX_CHUNKS && b.head < COMPACT
    ensures forall i :: 0 <= i < |t.packets| && t.packets[i].Data? ==> 0 < |t.packets[i].bytes| <= CHUNK
  {
    hide Conserved, Live, Unsent;
    ReachableSound(t, s, body);
  }

  // Before the first credit the body lease holds one chunk, nothing has been received, and no credit is out;
  // `resize` has only ever shrunk the leases, so it cannot have failed; a closed receiver holds nothing.
  lemma ReservationsExact(t: Transfer, s: Setup, body: Bytes)
    requires Reachable(t, s, body)
    ensures !t.consumer.leases.grew
    ensures t.consumer.flow.closed ==> t.consumer.leases.body == 0 && t.consumer.leases.response == 0
    ensures var c := t.consumer;
            !c.flow.closed && (c.leases.primed || c.flow.producerDone) ==>
              c.leases.body == c.leases.response == |Live(c.buffer.chunks)| + Owed(c.flow.credit) <= Max(s.readAhead, CHUNK)
    ensures var c := t.consumer;
            !c.flow.closed && !c.leases.primed && !c.flow.producerDone ==>
              && c.leases.body == CHUNK && c.leases.response == 0 && c.delivered == []
              && Live(c.buffer.chunks) == [] && !c.flow.credit
  {
    hide Conserved, Flowing;
    ReachableSound(t, s, body);
  }

  lemma StepStaysPrimed(t: Transfer, s: Setup, e: Event)
    ensures t.consumer.leases.primed ==> Step(t, s, e).consumer.leases.primed
  {
    hide Grants, TakeChunk, HasChunk, Work, ReadChunk, ReadDone, Stop, Wake;
  }

  lemma {:induction false} StaysPrimed(t: Transfer, s: Setup, es: seq<Event>)
    requires t.consumer.leases.primed
    ensures Run(t, s, es).consumer.leases.primed
    decreases es
  {
    if es != [] {
      hide Step;
      StepStaysPrimed(t, s, es[0]);
      StaysPrimed(Step(t, s, es[0]), s, es[1..]);
    }
  }

  // From any moment at which a credit is out, for ever after, both leases of an open receiver hold exactly
  // the buffered bytes and the outstanding credit, at most max(readAhead, one chunk).
  lemma ExactOnceGranted(t: Transfer, s: Setup, body: Bytes, es: seq<Event>)
    requires Reachable(t, s, body) && t.consumer.flow.credit && !t.consumer.flow.closed
    ensures var c := Run(t, s, es).consumer;
            !c.flow.closed ==>
              c.leases.body == c.leases.response == |Live(c.buffer.chunks)| + Owed(c.flow.credit) <= Max(s.readAhead, CHUNK)
  {
    ReachableSound(t, s, body);
    CreditPrimes(t, s, body);
    StaysPrimed(t, s, es);
    hide Run, Sound, Reachable, Live;
    RunSound(t, s, body, es);
    if !Run(t, s, es).consumer.flow.closed {
      PrimedIsExact(Run(t, s, es), s, body);
    }
  }

  lemma CreditPrimes(t: Transfer, s: Setup, body: Bytes)
    requires Sound(t, s, body) && t.consumer.flow.credit && !t.consumer.flow.closed
    ensures t.consumer.leases.primed
  {
    hide Conserved, Flowing;
  }

  lemma PrimedIsExact(t: Transfer, s: Setup, body: Bytes)
    requires Sound(t, s, body) && t.consumer.leases.primed && !t.consumer.flow.closed
    ensures var c := t.consumer;
            c.leases.body == c.leases.response == |Live(c.buffer.chunks)| + Owed(c.flow.credit) <= Max(s.readAhead, CHUNK)
  {
    hide Conserved, Flowing;
  }

  // A consumer that waits for bytes is never left with bytes in the buffer, nor after the last of them.
  lemma DemandIsServed(t: Transfer, s: Setup, body: Bytes)
    requires Reachable(t, s, body) && !t.consumer.flow.closed && t.consumer.flow.pulling
    ensures t.consumer.buffer.chunks == [] && !t.consumer.flow.producerDone
  {
    hide Conserved, Flowing, Holding;
    ReachableSound(t, s, body);
  }

  // The outstanding credit is always being worked on: a pull is on its way to a producer that waits for
  // it, or the producer holds the credit, or the answer is on its way back, or the producer has ended without
  // being able to say so and its port is closing.
  lemma CreditIsWorkedOn(t: Transfer, s: Setup, body: Bytes)
    requires Reachable(t, s, body) && Awaiting(t.consumer) && !t.producer.cancelled && t.consumer.flow.credit
    ensures !t.producer.available
    ensures (t.pulls == 1 && t.producer.stage == Parked) || AtWork(t.producer) || t.packets != [] || Speechless(t.producer)
  {
    hide Receiving, Conserved;
    ReachableSound(t, s, body);
  }

  // ---- the limit --------------------------------------------------------------------------------------------

  // What the producer posts in an event.
  function PostedBy(t: Transfer, s: Setup, e: Event): Posting {
    match e
    case ProducerWorks => Work(t.producer)
    case ChunkRead => ReadChunk(t.producer, s.limit)
    case EndRead => ReadDone(t.producer)
    case ReadFails(thrown) => if t.producer.stage == Reading then Fail(t.producer, thrown) else Posting(t.producer, [])
    case _ => Posting(Step(t, s, e).producer, [])
  }

  // All that it posts in a run, in order.
  function PostedAll(t: Transfer, s: Setup, es: seq<Event>): seq<Packet>
    decreases es
  {
    if es == [] then [] else PostedBy(t, s, es[0]).packets + PostedAll(Step(t, s, es[0]), s, es[1..])
  }

  // `sent` bytes of a body of `total` have been posted, all within the limit; only a cancelled producer reports
  // the end of a body that is over it.
  ghost predicate Within(p: Producer, sent: nat, total: nat, limit: nat) {
    && sent + |Unsent(p.content)| == total && sent <= limit
    && (p.stage != Ended ==> p.bytesRead + |Flat(p.content.source)| == total && p.bytesRead <= limit)
    && (p.said == Some(Finished(None)) ==> p.cancelled || total <= limit)
  }

  lemma CutWithin(q: Producer, current: Bytes, sent: nat, total: nat, limit: nat)
    requires Within(q.(content := q.content.(current := current)), sent, total, limit) && q.stage != Ended
    ensures var r := Cut(q, current);
            Within(r.producer, sent + |InFlight(r.packets)|, total, limit) && InFlight(r.packets) == Piece(current)
  {
    var r := Cut(q, current);
    assert r.packets[1..] == [];
    assert Unsent(r.producer.content) == Rest(current) + Flat(q.content.backlog) + Flat(q.content.source);
  }

  lemma WorkWithin(p: Producer, sent: nat, total: nat, limit: nat)
    requires Within(p, sent, total, limit)
    ensures var r := Work(p); Within(r.producer, sent + |InFlight(r.packets)|, total, limit)
  {
    var r := Work(p);
    if p.stage == Working && !p.aborted && !p.cancelled {
      if p.content.current != [] {
        CutWithin(p, p.content.current, sent, total, limit);
      } else if p.content.backlog != [] && p.content.backlog[0] != [] {
        CutWithin(p.(content := p.content.(backlog := p.content.backlog[1..])), p.content.backlog[0], sent, total, limit);
      }
    } else if p.stage == Working {
      assert r.packets[1..] == [];
    }
  }

  lemma ReadWithin(p: Producer, sent: nat, total: nat, limit: nat)
    requires Within(p, sent, total, limit) && (p.stage == Reading ==> p.content.current == [] && p.content.backlog == [])
    ensures var r := ReadChunk(p, Some(limit)); Within(r.producer, sent + |InFlight(r.packets)|, total, limit)
  {
    var r := ReadChunk(p, Some(limit));
    if p.stage == Reading && p.content.source != [] {
      var chunk := p.content.source[0];
      var q := p.(bytesRead := p.bytesRead + |chunk|, content := p.content.(source := p.content.source[1..]));
      if r.producer.stage == Ended {
        assert r.packets[1..] == [];
      } else if chunk != [] {
        CutWithin(q, chunk, sent, total, limit);
      }
    }
  }

  // While the producer reads, nothing that it has read is left.
  ghost predicate ReadsLast(p: Producer) {
    p.stage == Reading ==> p.content.current == [] && p.content.backlog == []
  }

  lemma PostingWithin(t: Transfer, s: Setup, e: Event, sent: nat, total: nat, limit: nat)
    requires Within(t.producer, sent, total, limit) && ReadsLast(t.producer) && s.limit == Some(limit)
    ensures var r := PostedBy(t, s, e);
            Within(r.producer, sent + |InFlight(r.packets)|, total, limit) && ReadsLast(r.producer)
    ensures Step(t, s, e).producer == PostedBy(t, s, e).producer
  {
    hide Grants, Pump, Flush, OnData, OnDone, Unsent, Excerpt, InFlight, Within, Piece, Rest;
    NoneInFlight();
    match e
    case ProducerWorks => WorkWithin(t.producer, sent, total, limit);
    case ChunkRead => ReadWithin(t.producer, sent, total, limit);
    case EndRead => DoneWithin(t.producer, sent, total, limit);
    case ReadFails(thrown) => FailWithin(t.producer, thrown, sent, total, limit);
    case _ => SameWithin(t.producer, Step(t, s, e).producer, sent, total, limit);
  }

  lemma NoneInFlight()
    ensures InFlight([]) == []
  {
  }

  lemma SameWithin(p: Producer, q: Producer, sent: nat, total: nat, limit: nat)
    requires Within(p, sent, total, limit)
    requires q.content == p.content && q.bytesRead == p.bytesRead && q.said == p.said && (p.cancelled ==> q.cancelled)
    requires p.stage == Ended ==> q.stage == Ended
    ensures Within(q, sent, total, limit)
  {
    hide Unsent, Flat;
  }

  lemma FailWithin(p: Producer, thrown: Thrown, sent: nat, total: nat, limit: nat)
    requires Within(p, sent, total, limit)
    ensures var r := Fail(p, thrown); Within(r.producer, sent + |InFlight(r.packets)|, total, limit) && ReadsLast(r.producer)
  {
    hide Excerpt, Unsent;
    var r := Fail(p, thrown);
    assert r.packets == [] || r.packets[1..] == [];
  }

  lemma DoneWithin(p: Producer, sent: nat, total: nat, limit: nat)
    requires Within(p, sent, total, limit) && ReadsLast(p)
    ensures var r := ReadDone(p); Within(r.producer, sent + |InFlight(r.packets)|, total, limit) && ReadsLast(r.producer)
  {
    hide Unsent;
    var r := ReadDone(p);
    assert r.packets == [] || r.packets[1..] == [];
  }

  lemma {:induction false} BytesAdd(a: seq<Packet>, b: seq<Packet>)
    ensures |InFlight(a + b)| == |InFlight(a)| + |InFlight(b)|
    decreases a
  {
    if a == [] {
      assert a + b == b;
    } else {
      assert (a + b)[0] == a[0] && (a + b)[1..] == a[1..] + b;
      BytesAdd(a[1..], b);
    }
  }

  lemma {:induction false} RunWithin(t: Transfer, s: Setup, es: seq<Event>, sent: nat, total: nat, limit: nat)
    requires Within(t.producer, sent, total, limit) && ReadsLast(t.producer) && s.limit == Some(limit)
    ensures Within(Run(t, s, es).producer, sent + |InFlight(PostedAll(t, s, es))|, total, limit)
    decreases es
  {
    hide Step, Within, ReadsLast, PostedBy;
    if es == [] {
      assert InFlight([]) == [];
    } else {
      hide InFlight;
      var r := PostedBy(t, s, es[0]);
      PostingWithin(t, s, es[0], sent, total, limit);
      RunWithin(Step(t, s, es[0]), s, es[1..], sent + |InFlight(r.packets)|, total, limit);
      BytesAdd(r.packets, PostedAll(Step(t, s, es[0]), s, es[1..]));
    }
  }

  // Within a limit, whatever happens, the producer posts at most that many bytes, and it reports the end of a body
  // over the limit only once its consumer is gone or its execution is cancelled; otherwise such a body ends in an
  // error or not at all.
  lemma LimitHolds(content: Content, bytesRead: nat, s: Setup, room: bool, posted: bool, es: seq<Event>)
    requires s.limit.Some? && bytesRead <= s.limit.value
    requires bytesRead == |content.current| + |Flat(content.backlog)|
    ensures var t := Start(content, bytesRead, s, room, posted);
            var p := Run(t, s, es).producer;
            && |InFlight(PostedAll(t, s, es))| <= s.limit.value
            && (|Unsent(content)| > s.limit.value && p.said.Some? && p.said.value == Finished(None) ==> p.cancelled)
  {
    var t := Start(content, bytesRead, s, room, posted);
    assert t.producer == Producer(content, bytesRead, false, Parked, false, false, None);
    assert Within(t.producer, 0, |Unsent(content)|, s.limit.value);
    hide Start, Run, PostedAll, Unsent;
    RunWithin(t, s, es, 0, |Unsent(content)|, s.limit.value);
  }

  // ---- progress ------------------------------------------------------------------------------------------------

  // What makes an open receiver look whether it may grant: bytes from the producer, a consumer that waits, or room
  // in a budget; here with room, and with a port that takes messages.
  predicate Prompts(t: Transfer, e: Event) {
    || e == BudgetFreed(true, true)
    || (e == Demand(true, true) && !t.consumer.flow.pulling)
    || (e == PacketArrives(true, true) && t.packets != [] && t.packets[0].Data?)
  }

  // It has a credit out afterwards exactly if that was out before and has not been used up, or its consumer waits,
  // or the read-ahead takes another chunk.
  lemma DemandIsGranted(t: Transfer, s: Setup, body: Bytes, e: Event)
    requires Reachable(t, s, body) && Awaiting(t.consumer) && Prompts(t, e)
    ensures var c := Step(t, s, e).consumer;
            && !c.flow.closed
            && (c.flow.credit <==>
                  || (t.consumer.flow.credit && !e.PacketArrives?) || c.flow.pulling
                  || (c.buffer.bytes + CHUNK <= s.readAhead && |c.buffer.chunks| - c.buffer.head < MAX_CHUNKS))
  {
    hide Conserved, Flowing, Live, Unsent, Reachable;
    ReachableSound(t, s, body);
  }

  // Once the receiver is gone, the closed port wakes the producer, and its next turn ends it; if it is reading, the
  // cancelled reader ends it. So does an abort, which the receiver is told of.
  lemma CancelledProducerEnds(t: Transfer, s: Setup, e: Event)
    requires e == SignalAborts || (e == ProducerSeesClose && t.consumer.flow.closed)
    ensures var a := Step(t, s, e);
            var b := Step(a, s, Resume);
            var c := Step(b, s, ProducerWorks);
            var d := Step(c, s, EndRead);
            && a.producer.cancelled && a.producer.stage != Parked && d.producer.stage == Ended
            && (c.producer.stage == Ended || c.producer.stage == Reading)
            && (e == SignalAborts && t.producer.stage != Ended ==> d.packets == t.packets + [Finished(Some(ABORTED_TEXT))])
  {
    assert |ABORTED_TEXT| <= MAX_TEXT;
    hide Unsent;
  }

  lemma {:induction false} ClosedStays(t: Transfer, s: Setup, es: seq<Event>)
    requires t.consumer.flow.closed
    ensures Run(t, s, es).consumer == t.consumer
    decreases es
  {
    if es != [] {
      assert Step(t, s, es[0]).consumer == t.consumer by { hide Work, ReadChunk, ReadDone, Fail; }
      hide Step;
      ClosedStays(Step(t, s, es[0]), s, es[1..]);
    }
  }

  // A receiver that gives up is over for good: it fails, unless it was over before, it gives back both reservations,
  // and nothing more is delivered, whatever still comes.
  lemma GivingUpIsFinal(t: Transfer, s: Setup, body: Bytes, es: seq<Event>)
    requires Reachable(t, s, body)
    ensures var c, d := t.consumer, Run(Step(t, s, GiveUp), s, es).consumer;
            && d.flow.closed && d.delivered == c.delivered && d.leases.body == d.leases.response == 0
            && d.ending == (if c.flow.closed then c.ending else Failed)
  {
    ReachableSound(t, s, body);
    hide Conserved, Flowing, Reachable, Run;
    ClosedStays(Step(t, s, GiveUp), s, es);
  }

  // A producer that reads with its cancellation known will not park after the chunk.
  predicate Roused(p: Producer) {
    p.cancelled ==> p.stage != Parked && (p.stage == Reading ==> p.available)
  }

  lemma PostingRoused(p: Producer, limit: Option<nat>)
    requires Roused(p)
    ensures Roused(Work(p).producer) && Roused(ReadChunk(p, limit).producer) && Roused(ReadDone(p).producer)
  {
    hide Excerpt;
  }

  lemma StepRoused(t: Transfer, s: Setup, e: Event)
    requires Roused(t.producer)
    ensures Roused(Step(t, s, e).producer)
  {
    PostingRoused(t.producer, s.limit);
    hide Work, ReadChunk, ReadDone, Pump, OnDone, OnData, OnDemand, Finish;
  }

  lemma {:induction false} RunRoused(t: Transfer, s: Setup, es: seq<Event>)
    requires Roused(t.producer)
    ensures Roused(Run(t, s, es).producer)
    decreases es
  {
    if es != [] {
      hide Step, Roused;
      StepRoused(t, s, es[0]);
      RunRoused(Step(t, s, es[0]), s, es[1..]);
    }
  }

  lemma StartAwake(content: Content, bytesRead: nat, s: Setup, room: bool, posted: bool)
    ensures !Start(content, bytesRead, s, room, posted).producer.cancelled
  {
    hide Pump;
  }

  // In no order of events does a cancelled producer sleep: a signal or a closed port is never missed.
  lemma CancelledNeverSleeps(t: Transfer, s: Setup, body: Bytes)
    requires Reachable(t, s, body) && t.producer.cancelled
    ensures t.producer.stage != Parked
  {
    hide Sound, Run, Start, Unsent;
    var content: Content, bytesRead: nat, room: bool, posted: bool, es: seq<Event> :|
      Unsent(content) == body && t == Run(Start(content, bytesRead, s, room, posted), s, es);
    StartAwake(content, bytesRead, s, room, posted);
    RunRoused(Start(content, bytesRead, s, room, posted), s, es);
  }
}
