/** What every change of the workers keeps: active, parked and retired workers stay apart, idle workers
 are active, and a worker is bound to at most one project in its life. */
module PoolFleet {
  import opened Lists
  import opened PoolModel

  // `hand`: workers that a step holds between leaving one list and joining another.
  ghost predicate Roster(f: Fleet, hand: set<Worker>) {
    && NoDup(f.idle) && NoDup(f.active) && NoDup(f.parked)
    && (forall w :: w in f.idle ==> w in f.active)
    && (forall w :: w in f.parked ==> w !in f.active && w !in hand)
    && (forall w :: w in f.active ==> w !in hand)
    && (forall w :: w in f.retired ==> w !in f.active && w !in f.parked && w !in hand && w < f.next)
    && (forall w :: w in f.meta <==> w in f.active || w in f.parked || w in hand)
    && (forall w :: w in f.meta ==> w < f.next)
    && (forall w :: w in f.tainted ==> w < f.next)
    && !f.fault
  }

  // Between two states no worker changes its project or its generation, and no worker number is used twice.
  ghost predicate Binds(f: Fleet, g: Fleet) {
    && f.next <= g.next && f.generation <= g.generation
    && (forall w :: w in g.meta && w < f.next ==>
          && w in f.meta && g.meta[w].generation == f.meta[w].generation
          && (f.meta[w].project.Some? ==> g.meta[w].project == f.meta[w].project))
  }

  // Nothing happens to the workers that stay idle.
  ghost predicate KeepsIdle(f: Fleet, g: Fleet) {
    forall w :: w in g.idle && w in f.meta && w in g.meta ==>
      g.meta[w].surplusTimer == f.meta[w].surplusTimer && (w in f.tainted ==> w in g.tainted)
  }

  lemma BindsTransitive(f: Fleet, g: Fleet, h: Fleet)
    requires Binds(f, g) && Binds(g, h)
    ensures Binds(f, h)
  {
  }

  lemma CreateRoster(f: Fleet)
    requires Roster(f, {})
    ensures Roster(Create(f), {f.next}) && Binds(f, Create(f)) && KeepsIdle(f, Create(f))
  {
  }

  lemma ActivateRoster(f: Fleet, w: Worker)
    requires Roster(f, {w})
    ensures Roster(Activate(f, w), {}) && Binds(f, Activate(f, w))
    ensures w in Activate(f, w).active && w !in Activate(f, w).idle
  {
  }

  lemma SpawnRoster(f: Fleet)
    requires Roster(f, {})
    ensures var g := Spawn(f);
            Roster(g, {}) && Binds(f, g) && KeepsIdle(f, g) && f.next in g.active && f.next !in g.idle
            && g.idle == f.idle && g.parked == f.parked && |g.active| == |f.active| + 1
  {
    CreateRoster(Churn(f));
    ActivateRoster(Create(Churn(f)), f.next);
    hide Roster;
  }

  lemma AssignRoster(f: Fleet, hand: set<Worker>, w: Worker, p: Project)
    requires Roster(f, hand) && w in f.meta && f.Accepts(w, p)
    ensures var g := Assign(f, w, p);
            Roster(g, hand) && Binds(f, g) && KeepsIdle(f, g) && g.ProjectOf(w) == Some(p)
            && g.idle == f.idle && g.active == f.active && g.parked == f.parked && g.tainted == f.tainted
  {
  }

  lemma TimerRoster(f: Fleet, hand: set<Worker>, w: Worker, armed: bool)
    requires Roster(f, hand)
    ensures Roster(SetSurplusTimer(f, w, armed), hand) && Binds(f, SetSurplusTimer(f, w, armed))
    ensures w !in f.idle ==> KeepsIdle(f, SetSurplusTimer(f, w, armed))
  {
  }

  lemma RemoveRoster(f: Fleet, hand: set<Worker>, w: Worker)
    requires Roster(f, hand)
    ensures Roster(Remove(f, w), hand) && Binds(f, Remove(f, w)) && KeepsIdle(f, Remove(f, w))
    ensures forall x :: x in Remove(f, w).idle <==> x in f.idle && x != w
    ensures forall x :: x in Remove(f, w).active ==> x in f.active
  {
    hide Without;
    RemoveOnly(f, hand, w);
    RemoveBinds(f, w);
    hide Roster, Remove;
  }

  lemma RemoveOnly(f: Fleet, hand: set<Worker>, w: Worker)
    requires Roster(f, hand)
    ensures Roster(Remove(f, w), hand)
    ensures forall x :: x in Remove(f, w).idle <==> x in f.idle && x != w
    ensures forall x :: x in Remove(f, w).active ==> x in f.active
  {
    WithoutMembers(f.idle, w);
    WithoutMembers(f.active, w);
    WithoutMembers(f.parked, w);
    hide Without, NoDup;
  }

  lemma RemoveBinds(f: Fleet, w: Worker)
    ensures Binds(f, Remove(f, w)) && KeepsIdle(f, Remove(f, w))
  {
    hide Without;
  }

  lemma ToParkedOnly(f: Fleet, hand: set<Worker>, w: Worker)
    requires Roster(f, hand) && w in f.active
    ensures Roster(ToParked(f, w), hand) && w !in ToParked(f, w).idle && |ToParked(f, w).active| == |f.active| - 1
    ensures ToParked(f, w).parked == f.parked + [w]
  {
    WithoutMembers(f.idle, w);
    WithoutMembers(f.active, w);
    hide Without;
  }

  lemma ToParkedRoster(f: Fleet, hand: set<Worker>, w: Worker)
    requires Roster(f, hand) && w in f.active
    ensures var g := ToParked(SetSurplusTimer(f, w, false), w);
            Roster(g, hand) && Binds(f, g) && KeepsIdle(f, g)
            && g.idle == Without(f.idle, w) && w !in g.idle
            && |g.active| == |f.active| - 1 && g.parked == f.parked + [w]
  {
    hide Roster, Without;
    TimerRoster(f, hand, w, false);
    ToParkedOnly(SetSurplusTimer(f, w, false), hand, w);
  }

  lemma UnparkRoster(f: Fleet, w: Worker)
    requires Roster(f, {}) && w in f.parked
    ensures Roster(Unpark(f, w), {w}) && Binds(f, Unpark(f, w)) && KeepsIdle(f, Unpark(f, w))
    ensures |Unpark(f, w).parked| == |f.parked| - 1
  {
    WithoutMembers(f.parked, w);
    hide Without;
  }

  lemma ToIdleRoster(f: Fleet, w: Worker)
    requires Roster(f, {}) && w in f.active && w !in f.idle
    ensures Roster(ToIdle(f, w), {})
  {
  }

  lemma TakeAtRoster(f: Fleet, i: nat)
    requires Roster(f, {}) && i < |f.idle|
    ensures var g := TakeAt(f, i);
            Roster(g, {}) && Binds(f, g) && f.idle[i] in g.active && f.idle[i] !in g.idle
            && g.active == f.active && g.parked == f.parked && g.tainted == f.tainted
            && g.ProjectOf(f.idle[i]) == f.ProjectOf(f.idle[i])
            && (forall x :: x in g.idle ==> x in f.idle && g.meta[x] == f.meta[x])
  {
    assert f.idle[i] in f.idle;
    var idle := f.idle[..i] + f.idle[i + 1..];
    forall x | x in idle ensures x in f.idle && x != f.idle[i] {
      var j :| 0 <= j < |idle| && idle[j] == x;
      assert x == f.idle[if j < i then j else j + 1];
    }
  }
}
