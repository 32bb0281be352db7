/** What every change of the dispatch queue keeps: the two-level queue is consistent, no request is
 lost or served twice, each project is served in arrival order, and the wait of a project is bounded. */
module PoolQueue {
  import opened Lists
  import opened PoolModel

  ghost predicate Waiting(q: Queue, r: Request) {
    r.project in q.lists && r in q.lists[r.project]
  }

  ghost function Total(lists: map<Project, seq<Request>>, ps: seq<Project>): nat {
    if ps == [] then 0
    else (if ps[0] in lists then |lists[ps[0]]| else 0) + Total(lists, ps[1..])
  }

  // `queuedProjects` lists the keys of `queuedDispatches` once each, and `queuedCount` is the total.
  ghost predicate Consistent(q: Queue) {
    && NoDup(q.order)
    && (forall p :: p in q.order <==> p in q.lists)
    && (forall p :: p in q.lists ==> q.lists[p] != [])
    && (forall p, r :: p in q.lists && r in q.lists[p] ==> r.project == p)
    && q.count == Total(q.lists, q.order)
    && !q.fault
  }

  // Every arrived request has exactly one fate, and the queue holds exactly the undecided ones.
  ghost predicate Accounted(q: Queue) {
    && (forall r :: r in q.fate ==> r.id < q.arrivals)
    && (forall r :: Waiting(q, r) <==> r in q.fate && q.fate[r] == Queued)
    && (forall i :: 0 <= i < |q.started| ==> q.started[i].request in q.fate && q.fate[q.started[i].request] == Started)
    && (forall r :: r in q.fate && q.fate[r] == Started ==> exists i :: 0 <= i < |q.started| && q.started[i].request == r)
  }

  // Arrival order per project, in the queue, among the started requests, and between the two.
  ghost predicate Ordered(q: Queue) {
    && (forall p, i, j :: p in q.lists && 0 <= i < j < |q.lists[p]| ==> q.lists[p][i].id < q.lists[p][j].id)
    && (forall i, j :: 0 <= i < j < |q.started| && q.started[i].request.project == q.started[j].request.project
          ==> q.started[i].request.id < q.started[j].request.id)
    && (forall i, r :: 0 <= i < |q.started| && Waiting(q, r) && q.started[i].request.project == r.project
          ==> q.started[i].request.id < r.id)
  }

  // Each decision that passed over a project without a worker has brought it one place forward.
  ghost predicate Bounded(q: Queue) {
    InBounds(q.order, q.waits)
  }

  ghost predicate InBounds(order: seq<Project>, waits: map<Project, Wait>) {
    && (forall p :: p in waits <==> p in order)
    && (forall i :: 0 <= i < |order| ==> waits[order[i]].bypassed + i <= waits[order[i]].place)
  }

  ghost predicate Good(q: Queue) {
    Consistent(q) && Accounted(q) && Ordered(q) && Bounded(q)
  }

  // ---- totals --------------------------------------------------------------------------------

  lemma TotalAppend(lists: map<Project, seq<Request>>, a: seq<Project>, b: seq<Project>)
    ensures Total(lists, a + b) == Total(lists, a) + Total(lists, b)
  {
    if a == [] { assert a + b == b; } else { assert (a + b)[1..] == a[1..] + b; TotalAppend(lists, a[1..], b); }
  }

  lemma TotalSame(l: map<Project, seq<Request>>, m: map<Project, seq<Request>>, ps: seq<Project>)
    requires forall p :: p in ps ==> (p in l <==> p in m) && (p in l ==> |l[p]| == |m[p]|)
    ensures Total(l, ps) == Total(m, ps)
  {
  }

  lemma TotalWithout(l: map<Project, seq<Request>>, ps: seq<Project>, p: Project)
    requires p in ps && p in l
    ensures Total(l, ps) == |l[p]| + Total(l, Without(ps, p))
  {
    var i := IndexOf(ps, p);
    assert ps == ps[..i] + ([p] + ps[i + 1..]);
    TotalHead(l, p, ps[i + 1..]);
    TotalAppend(l, ps[..i], [p] + ps[i + 1..]);
    TotalAppend(l, ps[..i], ps[i + 1..]);
    assert Without(ps, p) == ps[..i] + ps[i + 1..];
    hide Total, Without, IndexOf;
  }

  lemma TotalHead(l: map<Project, seq<Request>>, p: Project, ps: seq<Project>)
    requires p in l
    ensures Total(l, [p] + ps) == |l[p]| + Total(l, ps)
  {
    assert ([p] + ps)[1..] == ps;
  }

  lemma TotalZero(q: Queue)
    requires Consistent(q)
    ensures q.count == 0 <==> q.order == []
  {
  }

  // The total after the list of `p` alone changes.
  lemma TotalUpdate(l: map<Project, seq<Request>>, m: map<Project, seq<Request>>, ps: seq<Project>, p: Project)
    requires NoDup(ps) && p in ps && p in l && p in m
    requires forall x :: x in ps && x != p ==> (x in l <==> x in m) && (x in l ==> |l[x]| == |m[x]|)
    ensures Total(m, ps) == Total(l, ps) - |l[p]| + |m[p]|
  {
    TotalWithout(l, ps, p);
    TotalWithout(m, ps, p);
    WithoutMembers(ps, p);
    TotalSame(l, m, Without(ps, p));
  }

  // ---- enqueue -------------------------------------------------------------------------------

  lemma EnqueueWaiting(q: Queue, r: Request)
    ensures forall x :: Waiting(Enqueue(q, r), x) <==> Waiting(q, x) || x == r
  {
  }

  lemma EnqueueConsistent(q: Queue, r: Request)
    requires Consistent(q)
    ensures Consistent(Enqueue(q, r))
  {
    EnqueueTotal(q, r);
    hide Total;
  }

  lemma EnqueueTotal(q: Queue, r: Request)
    requires Consistent(q)
    ensures var t := Enqueue(q, r); t.count == Total(t.lists, t.order)
  {
    var t := Enqueue(q, r);
    var p := r.project;
    if p in q.lists {
      TotalUpdate(q.lists, t.lists, q.order, p);
    } else {
      TotalAppend(t.lists, q.order, [p]);
      TotalSame(q.lists, t.lists, q.order);
    }
  }

  lemma EnqueueOrdered(q: Queue, r: Request)
    requires Consistent(q) && Accounted(q) && Ordered(q)
    requires forall x :: x in q.fate ==> x.id < r.id
    ensures Ordered(Enqueue(q, r))
  {
    var t := Enqueue(q, r);
    EnqueueWaiting(q, r);
    assert t.started == q.started;
    WaitingIsOlder(q, r);
    hide Consistent, Accounted;
    forall p, i, j | p in t.lists && 0 <= i < j < |t.lists[p]| ensures t.lists[p][i].id < t.lists[p][j].id {
      if p == r.project && p in q.lists && j == |q.lists[p]| { assert Waiting(q, t.lists[p][i]); }
    }
    hide Waiting, Enqueue;
  }

  lemma WaitingIsOlder(q: Queue, r: Request)
    requires Consistent(q) && Accounted(q) && forall x :: x in q.fate ==> x.id < r.id
    ensures forall x :: Waiting(q, x) ==> x.id < r.id
    ensures forall i :: 0 <= i < |q.started| ==> q.started[i].request.id < r.id
    ensures forall p :: p in q.lists ==> forall x :: x in q.lists[p] ==> x.project == p
  {
    hide Waiting, Total;
  }

  lemma EnqueueGood(q: Queue, r: Request)
    requires Good(q) && r !in q.fate && r.id < q.arrivals
    requires forall x :: x in q.fate ==> x.id < r.id
    ensures Good(Enqueue(q, r))
  {
    EnqueueWaiting(q, r);
    EnqueueConsistent(q, r);
    EnqueueOrdered(q, r);
    EnqueueAccounted(q, r);
  }

  lemma EnqueueAccounted(q: Queue, r: Request)
    requires Accounted(q) && r !in q.fate && r.id < q.arrivals
    ensures Accounted(Enqueue(q, r))
  {
    EnqueueWaiting(q, r);
    hide Waiting;
  }

  // ---- serving -------------------------------------------------------------------------------

  // The requests left waiting once the oldest one of `p` is served.
  lemma AdvanceWaiting(q: Queue, p: Project, skipped: set<Project>)
    requires Consistent(q) && Ordered(q) && p in q.lists
    requires q.count > 0
    ensures forall x :: Waiting(Advance(q, p, skipped), x) <==> Waiting(q, x) && x != q.lists[p][0]
  {
    var t := Advance(q, p, skipped);
    var l := q.lists[p];
    forall x ensures Waiting(t, x) <==> Waiting(q, x) && x != l[0] {
      assert l == [l[0]] + l[1..];
      if x.project == p && x in l[1..] {
        var i :| 0 <= i < |l[1..]| && l[1..][i] == x;
        assert l[0].id < l[i + 1].id;
      }
    }
  }

  lemma AdvanceConsistent(q: Queue, p: Project, skipped: set<Project>)
    requires Consistent(q) && p in q.lists && q.count > 0
    ensures Consistent(Advance(q, p, skipped))
  {
    hide Without, Total, Bypass;
    var t := Advance(q, p, skipped);
    WithoutMembers(q.order, p);
    assert forall r :: r in q.lists[p][1..] ==> r in q.lists[p];
    AdvanceTotal(q, p, skipped);
  }

  lemma AdvanceTotal(q: Queue, p: Project, skipped: set<Project>)
    requires Consistent(q) && p in q.lists && q.count > 0
    ensures var t := Advance(q, p, skipped); t.count == Total(t.lists, t.order)
  {
    var t := Advance(q, p, skipped);
    var others := Without(q.order, p);
    WithoutMembers(q.order, p);
    TotalWithout(q.lists, q.order, p);
    TotalSame(q.lists, t.lists, others);
    TotalAppend(t.lists, others, [p]);
    hide Without, Bypass;
  }

  // Bounded bypass: whoever is passed over stands behind the project that is served.
  lemma BypassAt(q: Queue, p: Project, skipped: set<Project>, i: nat)
    requires Bounded(q) && p in q.order && i < |Without(q.order, p)| && Without(q.order, p)[i] != p
    requires forall i :: 0 <= i < |q.order| && q.order[i] in skipped ==> IndexOf(q.order, p) < i
    ensures var x := Without(q.order, p)[i];
            var waits := Bypass(q.waits, p, skipped);
            x in waits && waits[x].bypassed + i <= waits[x].place
  {
    WithoutAt(q.order, p, i);
    hide Without;
  }

  lemma AdvanceShape(q: Queue, p: Project, skipped: set<Project>)
    requires Consistent(q) && p in q.lists && q.count > 0
    ensures var t := Advance(q, p, skipped);
            var others := Without(q.order, p);
            var waits := Bypass(q.waits, p, skipped);
            || (t.order == others && t.waits == waits)
            || (t.order == others + [p] && t.waits == waits[p := Wait(|others|, 0)])
  {
    hide Without, Bypass, Total;
  }

  lemma OthersWait(q: Queue, p: Project, skipped: set<Project>)
    requires Consistent(q) && Bounded(q) && p in q.order
    ensures p !in Without(q.order, p)
    ensures forall x :: x in Bypass(q.waits, p, skipped) <==> x in Without(q.order, p)
  {
    WithoutMembers(q.order, p);
    hide Without, Total;
  }

  // After the decision, those that stood before stand in their bounds.
  lemma BypassBounded(q: Queue, p: Project, skipped: set<Project>)
    requires Consistent(q) && Bounded(q) && p in q.order
    requires forall i :: 0 <= i < |q.order| && q.order[i] in skipped ==> IndexOf(q.order, p) < i
    ensures var others := Without(q.order, p);
            var waits := Bypass(q.waits, p, skipped);
            InBounds(others, waits)
  {
    OthersWait(q, p, skipped);
    hide Consistent, Without, Bypass, Bounded;
    var others := Without(q.order, p);
    var waits := Bypass(q.waits, p, skipped);
    forall i | 0 <= i < |others| ensures waits[others[i]].bypassed + i <= waits[others[i]].place {
      assert others[i] in others;
      BypassAt(q, p, skipped, i);
    }
  }

  lemma PushBounded(order: seq<Project>, waits: map<Project, Wait>, p: Project)
    requires InBounds(order, waits) && p !in order
    ensures InBounds(order + [p], waits[p := Wait(|order|, 0)])
  {
    forall i | 0 <= i < |order| ensures order[i] in order {}
  }

  lemma AdvanceBounded(q: Queue, p: Project, skipped: set<Project>)
    requires Consistent(q) && Bounded(q) && p in q.lists && q.count > 0
    requires forall i :: 0 <= i < |q.order| && q.order[i] in skipped ==> IndexOf(q.order, p) < i
    ensures Bounded(Advance(q, p, skipped))
  {
    assert p in q.order && q.lists[p] != [];
    AdvanceShape(q, p, skipped);
    BypassBounded(q, p, skipped);
    NoDupWithout(q, p);
    hide Consistent, Bypass, Total, Without, InBounds, Advance;
    PushBounded(Without(q.order, p), Bypass(q.waits, p, skipped), p);
  }

  lemma NoDupWithout(q: Queue, p: Project)
    requires Consistent(q) && p in q.order
    ensures p !in Without(q.order, p)
  {
    WithoutMembers(q.order, p);
  }

  // The oldest request of a project precedes the others, and everything of it that has started.
  lemma AdvanceOrdered(q: Queue, p: Project, skipped: set<Project>)
    requires Consistent(q) && Ordered(q) && p in q.lists && q.count > 0
    ensures Ordered(Advance(q, p, skipped))
  {
    var a := Advance(q, p, skipped);
    AdvanceWaiting(q, p, skipped);
    forall x, i, j | x in a.lists && 0 <= i < j < |a.lists[x]| ensures a.lists[x][i].id < a.lists[x][j].id {
      if x == p { assert a.lists[x][i] == q.lists[x][i + 1] && a.lists[x][j] == q.lists[x][j + 1]; }
    }
    hide Waiting;
  }

  lemma ServeOrdered(q: Queue, p: Project, skipped: set<Project>, w: Worker, fit: bool)
    requires Consistent(q) && Ordered(q) && p in q.lists && q.count > 0
    ensures Ordered(MarkStarted(Advance(q, p, skipped), w, q.lists[p][0], fit))
  {
    var r := q.lists[p][0];
    var a := Advance(q, p, skipped);
    AdvanceOrdered(q, p, skipped);
    AdvanceWaiting(q, p, skipped);
    assert Waiting(q, r);
    assert a.started == q.started;
    forall x | Waiting(a, x) && r.project == x.project ensures r.id < x.id {
      var i :| 0 <= i < |q.lists[p]| && q.lists[p][i] == x;
      assert i > 0;
    }
    hide Advance, Consistent;
    MarkOrdered(a, w, r, fit);
  }

  lemma MarkOrdered(q: Queue, w: Worker, r: Request, fit: bool)
    requires Ordered(q)
    requires forall i :: 0 <= i < |q.started| && q.started[i].request.project == r.project ==> q.started[i].request.id < r.id
    requires forall x :: Waiting(q, x) && x.project == r.project ==> r.id < x.id
    ensures Ordered(MarkStarted(q, w, r, fit))
  {
    assert forall x :: Waiting(MarkStarted(q, w, r, fit), x) <==> Waiting(q, x);
    hide Waiting;
  }

  lemma ServeAccounted(q: Queue, p: Project, skipped: set<Project>, w: Worker, fit: bool)
    requires Consistent(q) && Accounted(q) && Ordered(q) && p in q.lists && q.count > 0
    ensures Accounted(MarkStarted(Advance(q, p, skipped), w, q.lists[p][0], fit))
    ensures !MarkStarted(Advance(q, p, skipped), w, q.lists[p][0], fit).fault
  {
    var r := q.lists[p][0];
    var a := Advance(q, p, skipped);
    assert Waiting(q, r);
    AdvanceWaiting(q, p, skipped);
    StartAccounted(q, a, w, r, fit);
  }

  lemma StartAccounted(q: Queue, a: Queue, w: Worker, r: Request, fit: bool)
    requires Accounted(q) && r.id < q.arrivals && (r in q.fate ==> q.fate[r] == Queued)
    requires a.fate == q.fate && a.started == q.started && a.arrivals == q.arrivals
    requires forall x :: Waiting(a, x) <==> Waiting(q, x) && x != r
    ensures Accounted(MarkStarted(a, w, r, fit))
  {
    var t := MarkStarted(a, w, r, fit);
    assert forall x :: Waiting(t, x) <==> Waiting(a, x);
    hide Waiting;
    forall x | x in t.fate && t.fate[x] == Started ensures exists i :: 0 <= i < |t.started| && t.started[i].request == x {
      if x == r { assert t.started[|q.started|].request == r; }
      else { var i :| 0 <= i < |q.started| && q.started[i].request == x; assert t.started[i].request == x; }
    }
  }

  lemma MarkStartedKeeps(q: Queue, w: Worker, r: Request, fit: bool)
    requires Consistent(q) && Bounded(q) && !MarkStarted(q, w, r, fit).fault
    ensures Consistent(MarkStarted(q, w, r, fit)) && Bounded(MarkStarted(q, w, r, fit))
  {
  }

  lemma ServeGood(q: Queue, p: Project, skipped: set<Project>, w: Worker, fit: bool)
    requires Good(q) && p in q.lists && q.lists[p] != [] && q.count > 0
    requires forall i :: 0 <= i < |q.order| && q.order[i] in skipped ==> IndexOf(q.order, p) < i
    ensures Good(MarkStarted(Advance(q, p, skipped), w, q.lists[p][0], fit))
  {
    hide *;
    assert Consistent(q) && Accounted(q) && Ordered(q) && Bounded(q) by { OpenGood(q); }
    AdvanceConsistent(q, p, skipped);
    AdvanceBounded(q, p, skipped);
    ServeOrdered(q, p, skipped, w, fit);
    ServeAccounted(q, p, skipped, w, fit);
    MarkStartedKeeps(Advance(q, p, skipped), w, q.lists[p][0], fit);
    OpenGood(MarkStarted(Advance(q, p, skipped), w, q.lists[p][0], fit));
  }

  lemma OpenGood(q: Queue)
    ensures Good(q) <==> Consistent(q) && Accounted(q) && Ordered(q) && Bounded(q)
  {
    hide Consistent, Accounted, Ordered, Bounded;
  }

  // The fast path of `enqueue`: a request that starts without having been queued.
  lemma StartFreshGood(q: Queue, w: Worker, r: Request, fit: bool)
    requires Good(q) && q.order == [] && r !in q.fate && r.id < q.arrivals
    requires forall x :: x in q.fate ==> x.id < r.id
    ensures Good(MarkStarted(q, w, r, fit))
  {
    StartAccounted(q, q, w, r, fit);
    StartFreshShape(q, w, r, fit);
    hide Consistent, Accounted, Ordered, Bounded, MarkStarted;
  }

  lemma StartFreshShape(q: Queue, w: Worker, r: Request, fit: bool)
    requires Good(q) && q.order == [] && r !in q.fate && r.id < q.arrivals
    requires forall x :: x in q.fate ==> x.id < r.id
    ensures Consistent(MarkStarted(q, w, r, fit)) && Bounded(MarkStarted(q, w, r, fit)) && Ordered(MarkStarted(q, w, r, fit))
  {
    assert forall x :: !Waiting(q, x) && !Waiting(MarkStarted(q, w, r, fit), x);
    assert forall i :: 0 <= i < |q.started| ==> q.started[i].request.id < r.id;
    hide Waiting, Total, Accounted;
  }

  // ---- removal -------------------------------------------------------------------------------

  lemma ClearGood(q: Queue)
    requires Good(q)
    ensures Good(Clear(q))
  {
    hide Consistent, Accounted, Ordered, Bounded;
    ClearShape(q);
    ClearAccounted(q);
  }

  lemma ClearShape(q: Queue)
    requires Consistent(q) && Ordered(q)
    ensures Consistent(Clear(q)) && Bounded(Clear(q)) && Ordered(Clear(q))
  {
    var t := Clear(q);
    assert forall x :: !Waiting(t, x);
    hide Waiting;
  }

  lemma ClearAccounted(q: Queue)
    requires Accounted(q)
    ensures Accounted(Clear(q))
  {
    var t := Clear(q);
    assert forall x :: !Waiting(t, x);
    hide Waiting;
    forall r | r in t.fate && t.fate[r] == Started ensures exists i :: 0 <= i < |t.started| && t.started[i].request == r {
      assert q.fate[r] == Started;
    }
  }

  // Leaving the rotation brings everyone behind one place forward.
  lemma LeaveAt(q: Queue, p: Project, i: nat)
    requires Bounded(q) && i < |Without(q.order, p)|
    ensures var x := Without(q.order, p)[i];
            x in q.waits && q.waits[x].bypassed + i <= q.waits[x].place
  {
    WithoutAt(q.order, p, i);
    hide Without;
  }

  lemma LeaveBounded(q: Queue, t: Queue, p: Project)
    requires NoDup(q.order) && Bounded(q) && t.order == Without(q.order, p) && t.waits == q.waits - {p}
    ensures Bounded(t)
  {
    hide Without, NoDup;
    WithoutMembers(q.order, p);
    forall i | 0 <= i < |t.order|
      ensures t.order[i] in t.waits && t.waits[t.order[i]].bypassed + i <= t.waits[t.order[i]].place
    {
      LeaveAt(q, p, i);
      assert t.order[i] in t.order;
    }
  }

  lemma LeaveConsistent(q: Queue, t: Queue, p: Project)
    requires Consistent(q) && p in q.lists && t.order == Without(q.order, p) && t.lists == q.lists - {p}
    requires t.count == q.count - |q.lists[p]| && !t.fault
    ensures Consistent(t)
  {
    WithoutMembers(q.order, p);
    TotalWithout(q.lists, q.order, p);
    TotalSame(q.lists, t.lists, t.order);
  }

  lemma DropProjectWaiting(q: Queue, p: Project)
    requires Consistent(q) && p in q.lists
    ensures forall x :: Waiting(DropProject(q, p), x) <==> Waiting(q, x) && x !in q.lists[p]
    ensures forall x :: x in q.lists[p] ==> Waiting(q, x)
  {
    hide Total, Without, NoDup;
    forall x ensures Waiting(DropProject(q, p), x) <==> Waiting(q, x) && x !in q.lists[p] {
      if x in q.lists[p] { assert x.project == p; }
    }
  }

  lemma DropProjectShape(q: Queue, p: Project)
    requires Consistent(q) && Bounded(q) && p in q.lists
    ensures Consistent(DropProject(q, p)) && Bounded(DropProject(q, p))
  {
    TotalWithout(q.lists, q.order, p);
    var t := DropProject(q, p);
    assert NoDup(q.order) && t.count == q.count - |q.lists[p]| && !t.fault;
    hide Consistent, Bounded, Total, Without;
    LeaveConsistent(q, t, p);
    LeaveBounded(q, t, p);
  }

  lemma DropProjectOrdered(q: Queue, p: Project)
    requires Consistent(q) && Ordered(q) && p in q.lists
    ensures Ordered(DropProject(q, p))
  {
    DropProjectWaiting(q, p);
    hide Waiting, Consistent, Without;
  }

  lemma DropProjectAccounted(q: Queue, p: Project)
    requires Consistent(q) && Accounted(q) && p in q.lists
    ensures Accounted(DropProject(q, p))
  {
    hide Waiting, Consistent, Without;
    DropProjectWaiting(q, p);
    var t := DropProject(q, p);
    forall r | r in t.fate && t.fate[r] == Started ensures exists i :: 0 <= i < |t.started| && t.started[i].request == r {
      assert q.fate[r] == Started;
    }
  }

  lemma DropProjectGood(q: Queue, p: Project)
    requires Good(q)
    ensures Good(DropProject(q, p))
  {
    hide Consistent, Accounted, Ordered, Bounded;
    if p in q.lists {
      DropProjectShape(q, p);
      DropProjectOrdered(q, p);
      DropProjectAccounted(q, p);
    }
  }

  lemma CancelQueuedWaiting(q: Queue, r: Request)
    requires Consistent(q) && Ordered(q) && Waiting(q, r)
    ensures forall x :: Waiting(CancelQueued(q, r), x) <==> Waiting(q, x) && x != r
  {
    assert NoDup(q.lists[r.project]);
    WithoutMembers(q.lists[r.project], r);
  }

  lemma CancelQueuedConsistent(q: Queue, r: Request)
    requires Consistent(q) && Ordered(q) && Bounded(q) && Waiting(q, r)
    ensures Consistent(CancelQueued(q, r)) && Bounded(CancelQueued(q, r))
  {
    var p := r.project;
    var t := CancelQueued(q, r);
    assert NoDup(q.lists[p]);
    WithoutMembers(q.lists[p], r);
    TotalWithout(q.lists, q.order, p);
    if Without(q.lists[p], r) == [] {
      LeaveConsistent(q, t, p);
      LeaveBounded(q, t, p);
    } else {
      TotalUpdate(q.lists, t.lists, q.order, p);
    }
  }

  lemma CancelQueuedOrdered(q: Queue, r: Request)
    requires Consistent(q) && Ordered(q) && Waiting(q, r)
    ensures Ordered(CancelQueued(q, r))
  {
    var p := r.project;
    var t := CancelQueued(q, r);
    CancelQueuedWaiting(q, r);
    forall x, i, j | x in t.lists && 0 <= i < j < |t.lists[x]| ensures t.lists[x][i].id < t.lists[x][j].id {
      if x == p { WithoutAt(q.lists[p], r, i); WithoutAt(q.lists[p], r, j); }
    }
    hide Without;
  }

  lemma SettleAccounted(q: Queue, t: Queue, r: Request)
    requires Accounted(q) && r in q.fate && q.fate[r] == Queued
    requires t.fate == q.fate[r := Answered] && t.started == q.started && t.arrivals == q.arrivals
    requires forall x :: Waiting(t, x) <==> Waiting(q, x) && x != r
    ensures Accounted(t)
  {
    hide Waiting;
    forall x | x in t.fate && t.fate[x] == Started ensures exists i :: 0 <= i < |t.started| && t.started[i].request == x {
      assert q.fate[x] == Started;
    }
  }

  lemma CancelQueuedAccounted(q: Queue, r: Request)
    requires Consistent(q) && Accounted(q) && Ordered(q) && Waiting(q, r)
    ensures Accounted(CancelQueued(q, r))
  {
    CancelQueuedWaiting(q, r);
    var t := CancelQueued(q, r);
    assert t.fate == q.fate[r := Answered] && t.started == q.started && t.arrivals == q.arrivals;
    SettleAccounted(q, t, r);
  }

  lemma CancelQueuedGood(q: Queue, r: Request)
    requires Good(q)
    ensures Good(CancelQueued(q, r))
  {
    if Waiting(q, r) {
      CancelQueuedConsistent(q, r);
      CancelQueuedOrdered(q, r);
      CancelQueuedAccounted(q, r);
    }
    hide CancelQueued, Total;
  }

  // ---- arrivals ------------------------------------------------------------------------------

  lemma ArriveGood(q: Queue)
    requires Good(q)
    ensures Good(Stamp(q))
  {
    var t := Stamp(q);
    assert forall x :: Waiting(t, x) <==> Waiting(q, x);
  }

  lemma RefuseShape(q: Queue, r: Request)
    requires Consistent(q) && Bounded(q) && Ordered(q)
    ensures Consistent(Refuse(q, r)) && Bounded(Refuse(q, r)) && Ordered(Refuse(q, r))
  {
    var t := Refuse(q, r);
    assert forall x :: Waiting(t, x) <==> Waiting(q, x);
    hide Waiting, Total;
  }

  lemma RefuseAccounted(q: Queue, r: Request)
    requires Accounted(q) && r !in q.fate && r.id < q.arrivals
    ensures Accounted(Refuse(q, r))
  {
    var t := Refuse(q, r);
    assert forall x :: Waiting(t, x) <==> Waiting(q, x);
    hide Waiting;
    forall x | x in t.fate && t.fate[x] == Started ensures exists i :: 0 <= i < |t.started| && t.started[i].request == x {
      assert x in q.fate && q.fate[x] == Started;
      var i :| 0 <= i < |q.started| && q.started[i].request == x;
      assert t.started[i].request == x;
    }
  }

  lemma RejectGood(q: Queue, r: Request)
    requires Good(q) && r !in q.fate && r.id < q.arrivals
    ensures Good(Refuse(q, r))
  {
    hide Consistent, Accounted, Ordered, Bounded, Refuse;
    RefuseShape(q, r);
    RefuseAccounted(q, r);
  }
}
