/** Reservations of body memory, and the reading of whole request bodies into it. */
module BodyBuffers {
  import opened Lists
  import opened TransferModel

  function Sum(held: seq<nat>): nat {
    if held == [] then 0 else held[0] + Sum(held[1..])
  }

  lemma {:induction false} SumUpdate(held: seq<nat>, i: nat, n: nat)
    requires i < |held|
    ensures Sum(held[i := n]) == Sum(held) - held[i] + n
    ensures held[i] <= Sum(held)
    decreases held
  {
    if i == 0 {
      assert held[i := n][1..] == held[1..];
    } else {
      assert held[i := n][1..] == held[1..][i - 1 := n];
      SumUpdate(held[1..], i - 1, n);
    }
  }

  lemma {:induction false} SumAppend(held: seq<nat>, n: nat)
    ensures Sum(held + [n]) == Sum(held) + n
    decreases held
  {
    if held == [] {
      assert ([] + [n])[1..] == [];
    } else {
      assert (held + [n])[1..] == held[1..] + [n];
      SumAppend(held[1..], n);
    }
  }

  // A budget and the amounts its leases hold, by the order in which the leases were made.
  class BodyBufferBudget {
    const limit: nat
    var used: nat
    var peak: nat
    var rejected: nat
    var notificationPending: bool
    var held: seq<nat>

    ghost predicate Valid()
      reads this
    {
      used == Sum(held) <= limit && used <= peak <= limit
    }

    constructor (limit: nat)
      ensures Valid() && this.limit == limit && held == [] && rejected == 0
    {
      this.limit := limit;
      used, peak, rejected, notificationPending, held := 0, 0, 0, false, [];
    }

    method Lease() returns (lease: nat)
      requires Valid()
      modifies `held
      ensures Valid() && lease == |old(held)| && held == old(held) + [0]
    {
      SumAppend(held, 0);
      lease := |held|;
      held := held + [0];
    }

    predicate CanResize(lease: nat, bytes: nat)
      requires lease < |held|
      reads this
    {
      used - held[lease] + bytes <= limit
    }

    // Takes the new amount whole or leaves everything as it was; giving bytes back wakes the waiters.
    method TryResize(lease: nat, bytes: nat) returns (ok: bool)
      requires Valid() && lease < |held|
      modifies `used, `peak, `notificationPending, `held
      ensures Valid() && ok == old(CanResize(lease, bytes))
      ensures held == if ok then old(held)[lease := bytes] else old(held)
      ensures notificationPending == (old(notificationPending) || (ok && bytes < old(held)[lease]))
      ensures peak == if old(peak) < used then used else old(peak)
    {
      SumUpdate(held, lease, bytes);
      if used - held[lease] + bytes > limit {
        return false;
      }
      var previous := held[lease];
      used := used + bytes - previous;
      held := held[lease := bytes];
      if peak < used { peak := used; }
      if bytes < previous { notificationPending := true; }
      ok := true;
    }

    // False is the source's BufferBudgetError.
    method Resize(lease: nat, bytes: nat) returns (ok: bool)
      requires Valid() && lease < |held|
      modifies `used, `peak, `notificationPending, `held, `rejected
      ensures Valid() && ok == old(CanResize(lease, bytes))
      ensures held == if ok then old(held)[lease := bytes] else old(held)
      ensures rejected == old(rejected) + if ok then 0 else 1
      ensures old(held)[lease] >= bytes ==> ok
    {
      SumUpdate(held, lease, bytes);
      ok := TryResize(lease, bytes);
      if !ok { rejected := rejected + 1; }
    }

    method Release(lease: nat)
      requires Valid() && lease < |held|
      modifies `used, `peak, `notificationPending, `held
      ensures Valid() && held == old(held)[lease := 0] && used == old(used) - old(held)[lease]
    {
      SumUpdate(held, lease, 0);
      var ok := TryResize(lease, 0);
      SumUpdate(old(held), lease, 0);
    }
  }

  // The reservation of one more chunk against both budgets: both or neither, and neither can fail half-way.
  method ReserveBoth(body: BodyBufferBudget, bodyLease: nat, response: BodyBufferBudget, responseLease: nat, bytes: nat)
    returns (room: bool)
    requires body != response && body.Valid() && response.Valid()
    requires bodyLease < |body.held| && responseLease < |response.held|
    modifies body, response
    ensures body.Valid() && response.Valid()
    ensures room == old(body.CanResize(bodyLease, bytes) && response.CanResize(responseLease, bytes))
    ensures body.held == if room then old(body.held)[bodyLease := bytes] else old(body.held)
    ensures response.held == if room then old(response.held)[responseLease := bytes] else old(response.held)
    ensures body.rejected == old(body.rejected) && response.rejected == old(response.rejected)
  {
    room := response.CanResize(responseLease, bytes) && body.CanResize(bodyLease, bytes);
    if room {
      var first := response.Resize(responseLease, bytes);
      var second := body.Resize(bodyLease, bytes);
    }
  }

  // ---- reading a whole body --------------------------------------------------------------------------

  datatype ReadOutcome = Whole(bytes: Bytes) | TooLong | NoBudget | ReadFailed

  lemma {:induction false} FlatAppend(a: seq<Bytes>, b: seq<Bytes>)
    ensures Flat(a + b) == Flat(a) + Flat(b)
    decreases a
  {
    if a == [] {
      assert a + b == b;
    } else {
      assert (a + b)[1..] == a[1..] + b;
      FlatAppend(a[1..], b);
    }
  }

  lemma FlatTake(input: seq<Bytes>, i: nat)
    requires i < |input|
    ensures Flat(input[..i + 1]) == Flat(input[..i]) + input[i]
    ensures |Flat(input[..i + 1])| <= |Flat(input)|
  {
    assert input[..i + 1] == input[..i] + [input[i]];
    FlatAppend(input[..i], [input[i]]);
    assert [input[i]][1..] == [];
    assert input == input[..i + 1] + input[i + 1..];
    FlatAppend(input[..i + 1], input[i + 1..]);
  }

  lemma FlatGrows(input: seq<Bytes>, i: nat, j: nat)
    requires i <= j <= |input|
    ensures |Flat(input[..i])| <= |Flat(input[..j])|
  {
    assert input[..j] == input[..i] + input[i..j];
    FlatAppend(input[..i], input[i..j]);
  }

  // Copies a stretch of a chunk into a page.
  method Fill(page: array<Byte>, used: nat, chunk: Bytes, offset: nat, n: nat)
    requires used + n <= page.Length && offset + n <= |chunk|
    modifies page
    ensures page[..used + n] == old(page[..used]) + chunk[offset..offset + n]
  {
    for i := 0 to n
      invariant page[..used + i] == old(page[..used]) + chunk[offset..offset + i]
    {
      page[used + i] := chunk[offset + i];
      assert page[..used + i + 1] == page[..used + i] + [chunk[offset + i]];
    }
  }

  // The pages of a body being read: all full but the last, of which `pageUsed` bytes are.
  class PagedBody {
    var pages: seq<array<Byte>>
    var allotted: nat
    var pageUsed: nat
    ghost var full: seq<Bytes>

    ghost predicate Valid()
      reads this, pages
    {
      if pages == [] then full == [] && allotted == 0 && pageUsed == 0
      else
        var last := pages[|pages| - 1];
        && |full| == |pages| - 1 && pageUsed <= last.Length
        && (forall i :: 0 <= i < |full| ==> pages[i] != last && pages[i][..] == full[i])
        && allotted == |Flat(full)| + last.Length
    }

    ghost function Contents(): Bytes
      requires Valid()
      reads this, pages
    {
      if pages == [] then [] else Flat(full) + pages[|pages| - 1][..pageUsed]
    }

    constructor ()
      ensures Valid() && Contents() == [] && pages == [] && allotted == 0 && fresh(this)
    {
      pages, allotted, pageUsed, full := [], 0, 0, [];
    }

    predicate IsFull()
      requires Valid()
      reads this, pages
    {
      pages == [] || pageUsed == pages[|pages| - 1].Length
    }

    lemma FullMeansAllocated()
      requires Valid()
      ensures |Contents()| <= allotted
      ensures IsFull() ==> |Contents()| == allotted
    {
    }

    lemma HasPage()
      requires Valid() && !IsFull()
      ensures pages != []
      ensures pages[|pages| - 1] in pages
    {
    }

    method AddPage(capacity: nat)
      requires Valid() && IsFull() && capacity > 0
      modifies this
      ensures Valid() && Contents() == old(Contents()) && !IsFull()
      ensures allotted == old(allotted) + capacity
      ensures |pages| == |old(pages)| + 1 && pages[..|old(pages)|] == old(pages) && fresh(pages[|old(pages)|])
    {
      var page := new Byte[capacity];
      if pages != [] {
        var last := pages[|pages| - 1];
        FlatAppend(full, [last[..]]);
        assert [last[..]][1..] == [];
        full := full + [last[..]];
      }
      pages := pages + [page];
      allotted := allotted + capacity;
      pageUsed := 0;
    }

    // Writes what fits of the chunk from `offset` into the last page.
    method Write(chunk: Bytes, offset: nat) returns (n: nat)
      requires Valid() && !IsFull() && offset < |chunk|
      modifies `pageUsed, pages[|pages| - 1]
      ensures Valid() && pages == old(pages) && allotted == old(allotted)
      ensures 0 < n <= |chunk| - offset && Contents() == old(Contents()) + chunk[offset..offset + n]
    {
      var last := pages[|pages| - 1];
      n := if last.Length - pageUsed < |chunk| - offset then last.Length - pageUsed else |chunk| - offset;
      ghost var before := Flat(full);
      ghost var head := last[..pageUsed];
      Fill(last, pageUsed, chunk, offset, n);
      pageUsed := pageUsed + n;
      assert before + (head + chunk[offset..offset + n]) == before + head + chunk[offset..offset + n];
    }
  }

  // Reservations asked for so far: increasing, never above twice the limit, and the last one covers the
  // pages twice over, once for the pages and once for the contiguous copy.
  ghost predicate Reserved(requests: seq<nat>, allotted: nat, limit: nat) {
    && allotted <= limit
    && (forall i :: 0 <= i < |requests| ==> requests[i] <= 2 * limit)
    && (forall i, j :: 0 <= i < j < |requests| ==> requests[i] < requests[j])
    && (if requests == [] then allotted == 0 else requests[|requests| - 1] == 2 * allotted)
  }

  // Makes room for at least one byte; false when the reservation for a new page is refused.
  method EnsureRoom(body: PagedBody, limit: nat, allow: (nat, nat) -> bool, requests: seq<nat>)
    returns (ok: bool, asked: seq<nat>)
    requires body.Valid() && |body.Contents()| < limit && Reserved(requests, body.allotted, limit)
    modifies body
    ensures body.Valid() && body.Contents() == old(body.Contents())
    ensures forall p <- body.pages :: p in old(body.pages) || fresh(p)
    ensures ok ==> !body.IsFull() && Reserved(asked, body.allotted, limit)
    ensures !ok ==> asked != [] && !allow(|asked| - 1, asked[|asked| - 1])
    ensures forall i :: 0 <= i < |asked| ==> asked[i] <= 2 * limit
  {
    hide PagedBody.Contents, PagedBody.Valid, PagedBody.IsFull, Reserved;
    asked := requests;
    ok := true;
    body.FullMeansAllocated();
    ReservedBounds(requests, body.allotted, limit);
    if body.IsFull() {
      ReservedWithin(requests, body.allotted, limit);
      var capacity := if CHUNK <= limit - body.allotted then CHUNK else limit - body.allotted;
      var request := (body.allotted + capacity) * 2;
      NextReserved(asked, body.allotted, capacity, limit);
      asked := asked + [request];
      if !allow(|asked| - 1, request) {
        return false, asked;
      }
      var before := body.pages;
      body.AddPage(capacity);
      assert body.pages == before + [body.pages[|before|]];
    }
  }

  // Stores one chunk, page by page.
  method StoreChunk(body: PagedBody, chunk: Bytes, limit: nat, allow: (nat, nat) -> bool, requests: seq<nat>)
    returns (ok: bool, asked: seq<nat>)
    requires body.Valid() && |body.Contents()| + |chunk| <= limit && Reserved(requests, body.allotted, limit)
    modifies body, body.pages
    ensures body.Valid() && forall p <- body.pages :: p in old(body.pages) || fresh(p)
    ensures ok ==> body.Contents() == old(body.Contents()) + chunk && Reserved(asked, body.allotted, limit)
    ensures !ok ==> asked != [] && !allow(|asked| - 1, asked[|asked| - 1])
    ensures forall i :: 0 <= i < |asked| ==> asked[i] <= 2 * limit
  {
    hide PagedBody.Valid, PagedBody.Contents, Reserved;
    asked := requests;
    ok := true;
    ReservedBounds(requests, body.allotted, limit);
    var offset := 0;
    while offset < |chunk|
      invariant offset <= |chunk| && body.Valid() && forall p <- body.pages :: p in old(body.pages) || fresh(p)
      invariant body.Contents() == old(body.Contents()) + chunk[..offset]
      invariant Reserved(asked, body.allotted, limit)
      invariant forall i :: 0 <= i < |asked| ==> asked[i] <= 2 * limit
      decreases |chunk| - offset
    {
      ok, asked := EnsureRoom(body, limit, allow, asked);
      if !ok { return; }
      body.HasPage();
      var n := body.Write(chunk, offset);
      assert chunk[..offset + n] == chunk[..offset] + chunk[offset..offset + n];
      offset := offset + n;
    }
    assert chunk[..offset] == chunk;
    ok := true;
  }

  lemma NothingReserved(limit: nat)
    ensures Reserved([], 0, limit) && Flat([]) == []
  {
  }

  lemma NextReserved(requests: seq<nat>, allotted: nat, capacity: nat, limit: nat)
    requires Reserved(requests, allotted, limit) && 0 < capacity <= limit - allotted
    ensures Reserved(requests + [(allotted + capacity) * 2], allotted + capacity, limit)
    ensures forall i :: 0 <= i < |requests| ==> requests[i] <= 2 * limit
  {
  }

  lemma ReservedWithin(requests: seq<nat>, allotted: nat, limit: nat)
    requires Reserved(requests, allotted, limit)
    ensures allotted <= limit
  {
  }

  lemma ReservedBounds(requests: seq<nat>, allotted: nat, limit: nat)
    requires Reserved(requests, allotted, limit)
    ensures forall i :: 0 <= i < |requests| ==> requests[i] <= 2 * limit
  {
  }

  // Copies what fits of a page behind what has been copied.
  method CopyPage(output: array<Byte>, offset: nat, page: Bytes) returns (end: nat)
    requires offset <= output.Length
    modifies output
    ensures offset <= end <= output.Length
    ensures end - offset == if |page| <= output.Length - offset then |page| else output.Length - offset
    ensures output[..end] == old(output[..offset]) + page[..end - offset]
  {
    var bytes := if |page| <= output.Length - offset then |page| else output.Length - offset;
    Fill(output, offset, page, 0, bytes);
    end := offset + bytes;
  }

  // Copies all pages that are full.
  method CopyFull(output: array<Byte>, pages: seq<array<Byte>>, ghost full: seq<Bytes>) returns (offset: nat)
    requires |pages| == |full| && output !in pages && |Flat(full)| <= output.Length
    requires forall i :: 0 <= i < |pages| ==> pages[i][..] == full[i]
    modifies output
    ensures offset == |Flat(full)| && output[..offset] == Flat(full)
  {
    offset := 0;
    assert full[..0] == [] && full[..|full|] == full;
    for i := 0 to |pages|
      invariant offset == |Flat(full[..i])| <= output.Length && output[..offset] == Flat(full[..i])
      invariant forall j :: 0 <= j < |pages| ==> pages[j][..] == full[j]
    {
      hide Flat;
      FlatTake(full, i);
      assert pages[i] in pages;
      var page := pages[i][..];
      var end := CopyPage(output, offset, page);
      assert page[..end - offset] == page;
      offset := end;
    }
  }

  // The pages put together, without what the last page has left over.
  method Join(body: PagedBody, total: nat) returns (output: array<Byte>)
    requires body.Valid() && total == |body.Contents()|
    ensures fresh(output) && output[..] == body.Contents()
  {
    output := new Byte[total];
    if body.pages == [] {
      return;
    }
    var last := |body.pages| - 1;
    var offset := CopyFull(output, body.pages[..last], body.full);
    var page := body.pages[last][..];
    assert page[..body.pageUsed] == body.pages[last][..body.pageUsed];
    var end := CopyPage(output, offset, page);
    assert output[..] == output[..end];
  }

  // `input`: the chunks the stream yields before it ends. `failsAt`: the read that fails or is aborted, if
  // any. `allow`: whether the budget grants the n-th reservation.
  method ReadBoundedBody(input: seq<Bytes>, failsAt: Option<nat>, limit: nat, allow: (nat, nat) -> bool)
    returns (outcome: ReadOutcome, requests: seq<nat>)
    ensures outcome.Whole? ==> outcome.bytes == Flat(input) && |Flat(input)| <= limit
    ensures outcome.Whole? && failsAt.Some? ==> failsAt.value > |input|
    ensures outcome.TooLong? ==>
              |Flat(if failsAt.Some? && failsAt.value <= |input| then input[..failsAt.value] else input)| > limit
    ensures outcome.ReadFailed? ==> failsAt.Some? && failsAt.value <= |input| && |Flat(input[..failsAt.value])| <= limit
    ensures outcome.NoBudget? ==> exists i :: 0 <= i < |requests| && !allow(i, requests[i])
    ensures forall i :: 0 <= i < |requests| ==> requests[i] <= 2 * limit
  {
    hide PagedBody.Valid, PagedBody.Contents, Reserved, Flat;
    var body := new PagedBody();
    requests := [];
    NothingReserved(limit);
    var total := 0;
    for k := 0 to |input|
      invariant body.Valid() && fresh(body) && forall i :: 0 <= i < |body.pages| ==> fresh(body.pages[i])
      invariant body.Contents() == Flat(input[..k]) && total == |body.Contents()| <= limit
      invariant Reserved(requests, body.allotted, limit)
      invariant forall i :: 0 <= i < |requests| ==> requests[i] <= 2 * limit
      invariant failsAt.Some? ==> failsAt.value >= k
    {
      if failsAt == Some(k) {
        return ReadFailed, requests;
      }
      FlatTake(input, k);
      var chunk := input[k];
      if chunk != [] {
        total := total + |chunk|;
        if total > limit {
          if failsAt.Some? && failsAt.value <= |input| { FlatGrows(input, k + 1, failsAt.value); }
          return TooLong, requests;
        }
        var ok: bool;
        ok, requests := StoreChunk(body, chunk, limit, allow, requests);
        if !ok {
          return NoBudget, requests;
        }
        forall i | 0 <= i < |body.pages| ensures fresh(body.pages[i]) {
          assert body.pages[i] in body.pages;
        }
      }
    }
    assert input[..|input|] == input;
    if failsAt == Some(|input|) {
      return ReadFailed, requests;
    }
    var output := Join(body, total);
    outcome := Whole(output[..]);
  }
}
