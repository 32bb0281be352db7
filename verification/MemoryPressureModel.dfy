/** The memory-pressure monitor: when new work is refused, when it is let in again, and when it gives up. */
module MemoryPressureModel {
  import opened Lists

  type Group = string

  // `hard`: the limit is a ceiling of its own, not the reclaim threshold of the kernel.
  datatype Snapshot = Snapshot(group: Group, current: nat, high: nat, events: nat, hard: bool)

  // What one poll finds: a snapshot, nothing to measure, or a failure of the measurement.
  datatype Sample = Seen(snapshot: Snapshot) | Nothing | Broken

  datatype Monitor = Monitor(
    blocked: bool, recovering: bool, stable: nat, pressure: nat, pressureGroup: Option<Group>,
    previous: Option<Snapshot>, stopped: bool)

  const CALM := Monitor(false, false, 0, 0, None, None, false)
  const STABLE_SAMPLES: nat := 3
  const PRESSURE_SAMPLES: nat := 3

  // Ratios to the limit, by cross-multiplication: 1, 0.85, 0.75 of max(1, high), and 0.9 of high.
  function Limit(s: Snapshot): nat {
    if s.high < 1 then 1 else s.high
  }

  predicate AtLimit(s: Snapshot) {
    s.current >= Limit(s)
  }

  predicate NearLimit(s: Snapshot) {
    s.current * 20 >= Limit(s) * 17
  }

  predicate Relaxed(s: Snapshot) {
    s.current * 4 <= Limit(s) * 3
  }

  predicate Comparable(previous: Option<Snapshot>, s: Snapshot) {
    previous.Some? && previous.value.group == s.group && previous.value.high == s.high
  }

  predicate Throttling(previous: Option<Snapshot>, s: Snapshot) {
    Comparable(previous, s) && s.events > previous.value.events
  }

  predicate Stable(previous: Option<Snapshot>, s: Snapshot) {
    Comparable(previous, s) && s.events == previous.value.events && s.current <= previous.value.current
  }

  predicate Blocks(m: Monitor, s: Snapshot) {
    || AtLimit(s) || (s.hard && NearLimit(s))
    || (NearLimit(s) && (Throttling(m.previous, s) || (m.recovering && Comparable(m.previous, s) && !Stable(m.previous, s))))
  }

  function Admit(m: Monitor, s: Snapshot): Monitor {
    if Blocks(m, s) then m.(blocked := true, recovering := false, stable := 0)
    else if !m.blocked && !m.recovering then m
    else if Relaxed(s) || (!NearLimit(s) && !Throttling(m.previous, s))
    then m.(blocked := false, recovering := false, stable := 0)
    else
      var n := if Stable(m.previous, s) then m.stable + 1 else 0;
      if n >= STABLE_SAMPLES then m.(recovering := m.blocked, blocked := false, stable := 0)
      else m.(stable := n)
  }

  predicate Pressing(previous: Option<Snapshot>, s: Snapshot) {
    s.current * 10 >= s.high * 9 && (s.current >= s.high || Throttling(previous, s))
  }

  function Count(m: Monitor, s: Snapshot, pressing: bool): Monitor {
    if !pressing then m.(pressure := 0, pressureGroup := None)
    else
      var n := if m.pressureGroup == Some(s.group) then m.pressure + 1 else 1;
      m.(pressure := n, pressureGroup := Some(s.group), stopped := n >= PRESSURE_SAMPLES)
  }

  function Poll(m: Monitor, x: Sample): Monitor {
    if m.stopped then m
    else
      match x
      case Broken => m.(previous := None, stable := 0, pressure := 0, pressureGroup := None)
      case Nothing => m.(stable := 0, previous := None, pressure := 0, pressureGroup := None)
      case Seen(s) => Count(Admit(m, s).(previous := Some(s)), s, Pressing(m.previous, s))
  }

  function Run(m: Monitor, xs: seq<Sample>): Monitor
    decreases |xs|
  {
    if xs == [] then m else Poll(Run(m, xs[..|xs| - 1]), xs[|xs| - 1])
  }

  // ---- both flags ------------------------------------------------------------------------------------------

  predicate Exclusive(m: Monitor) {
    !(m.blocked && m.recovering)
  }

  lemma PollExclusive(m: Monitor, x: Sample)
    requires Exclusive(m)
    ensures Exclusive(Poll(m, x))
    ensures Poll(m, x).recovering ==> m.blocked || m.recovering
    ensures !m.blocked && !m.recovering && Poll(m, x).blocked ==> x.Seen?
  {
  }

  lemma {:induction false} NeverBoth(m: Monitor, xs: seq<Sample>)
    requires Exclusive(m)
    ensures Exclusive(Run(m, xs))
    decreases |xs|
  {
    if xs != [] {
      NeverBoth(m, xs[..|xs| - 1]);
      PollExclusive(Run(m, xs[..|xs| - 1]), xs[|xs| - 1]);
    }
  }

  // At the limit, or near a hard one, admission is blocked whatever the monitor thought before.
  lemma LimitBlocks(m: Monitor, s: Snapshot)
    requires !m.stopped && (AtLimit(s) || (s.hard && NearLimit(s)))
    ensures Poll(m, Seen(s)).blocked && !Poll(m, Seen(s)).recovering
  {
  }

  // ---- reopening -------------------------------------------------------------------------------------------

  // Sample k of a run is stable: it can be compared with the one before it and shows no growth.
  ghost predicate StableAt(m: Monitor, xs: seq<Sample>, k: nat) {
    k < |xs| && xs[k].Seen? && Stable(Run(m, xs[..k]).previous, xs[k].snapshot)
  }

  ghost predicate ThreeStable(m: Monitor, xs: seq<Sample>, i: nat) {
    StableAt(m, xs, i) && StableAt(m, xs, i + 1) && StableAt(m, xs, i + 2)
  }

  ghost predicate NearThroughout(xs: seq<Sample>) {
    forall k :: 0 <= k < |xs| && xs[k].Seen? ==> NearLimit(xs[k].snapshot)
  }

  // Until the monitor stops, the counter counts the stable samples at the end of the run.
  ghost predicate Counted(m: Monitor, xs: seq<Sample>) {
    var r := Run(m, xs);
    var n := r.stable;
    !r.stopped ==>
      && n < STABLE_SAMPLES && n <= |xs| && (!r.blocked && !r.recovering ==> n == 0)
      && forall k :: |xs| - n <= k < |xs| ==> StableAt(m, xs, k)
  }

  // A recovering monitor has seen three stable samples, the count since then apart; an open one has seen
  // three of them twice.
  ghost predicate Earned(m: Monitor, xs: seq<Sample>) {
    var r := Run(m, xs);
    && (r.recovering ==> exists i :: 0 <= i && i + 3 + r.stable <= |xs| && ThreeStable(m, xs, i))
    && (!r.blocked && !r.recovering ==>
          exists i, j :: 0 <= i && i + 3 <= j && j + 3 <= |xs| && ThreeStable(m, xs, i) && ThreeStable(m, xs, j))
  }

  lemma StableEarlier(m: Monitor, xs: seq<Sample>, x: Sample, k: nat)
    requires StableAt(m, xs, k)
    ensures StableAt(m, xs + [x], k)
  {
    assert (xs + [x])[..k] == xs[..k];
  }

  lemma RunOne(m: Monitor, xs: seq<Sample>, x: Sample)
    ensures Run(m, xs + [x]) == Poll(Run(m, xs), x)
  {
    assert (xs + [x])[..|xs|] == xs;
  }

  // One more sample near the limit: the count grows by one or starts again, and only a full count moves on.
  lemma NearStep(r: Monitor, x: Sample)
    requires Exclusive(r) && !r.stopped && (r.blocked || r.recovering) && r.stable < STABLE_SAMPLES
    requires x.Seen? ==> NearLimit(x.snapshot)
    ensures var t := Poll(r, x);
            var good := x.Seen? && Stable(r.previous, x.snapshot);
            || (t.stable == 0 && (t.blocked || (t.recovering && r.recovering)))
            || (good && t.stable == r.stable + 1 < STABLE_SAMPLES && t.blocked == r.blocked && t.recovering == r.recovering)
            || (good && r.stable + 1 == STABLE_SAMPLES && t.stable == 0 && !t.blocked && t.recovering == r.blocked)
  {
  }

  lemma StepCount(r: Monitor, x: Sample)
    requires !r.stopped && r.stable < STABLE_SAMPLES && (!r.blocked && !r.recovering ==> r.stable == 0)
    ensures var t := Poll(r, x);
            && (t.stable == 0 || (x.Seen? && t.stable == r.stable + 1 < STABLE_SAMPLES && Stable(r.previous, x.snapshot)))
            && (!t.blocked && !t.recovering ==> t.stable == 0)
  {
  }

  lemma CountedStep(m: Monitor, xs: seq<Sample>, x: Sample)
    requires Counted(m, xs)
    ensures Counted(m, xs + [x])
  {
    hide Run, Poll, Stable;
    var r := Run(m, xs);
    RunOne(m, xs, x);
    if r.stopped {
      StoppedStays(r, x);
    } else {
      StepCount(r, x);
      forall k: nat | |xs| + 1 - Poll(r, x).stable <= k < |xs| + 1 ensures StableAt(m, xs + [x], k) {
        if k < |xs| {
          StableEarlier(m, xs, x, k);
        } else {
          assert (xs + [x])[..|xs|] == xs;
        }
      }
    }
  }

  lemma StoppedStays(r: Monitor, x: Sample)
    requires r.stopped
    ensures Poll(r, x) == r
  {
  }

  lemma ThreeEarlier(m: Monitor, xs: seq<Sample>, x: Sample, i: nat)
    requires ThreeStable(m, xs, i)
    ensures ThreeStable(m, xs + [x], i)
  {
    StableEarlier(m, xs, x, i);
    StableEarlier(m, xs, x, i + 1);
    StableEarlier(m, xs, x, i + 2);
  }

  // The third stable sample in a row.
  lemma ThirdStable(m: Monitor, xs: seq<Sample>, x: Sample)
    requires Counted(m, xs) && !Run(m, xs).stopped && Run(m, xs).stable == 2
    requires x.Seen? && Stable(Run(m, xs).previous, x.snapshot)
    ensures |xs| >= 2 && ThreeStable(m, xs + [x], |xs| - 2)
  {
    hide Run, Stable;
    StableEarlier(m, xs, x, |xs| - 2);
    StableEarlier(m, xs, x, |xs| - 1);
    assert (xs + [x])[..|xs|] == xs;
  }

  lemma EarnedStep(m: Monitor, xs: seq<Sample>, x: Sample)
    requires Counted(m, xs) && Earned(m, xs) && Exclusive(Run(m, xs)) && (x.Seen? ==> NearLimit(x.snapshot))
    ensures Earned(m, xs + [x])
  {
    hide Run, Poll, Stable, StableAt, ThreeStable;
    var r := Run(m, xs);
    RunOne(m, xs, x);
    var t := Poll(r, x);
    if r.stopped {
      StoppedStays(r, x);
    }
    if !r.blocked && !r.recovering {
      var i: nat, j: nat :| i + 3 <= j && j + 3 <= |xs| && ThreeStable(m, xs, i) && ThreeStable(m, xs, j);
      ThreeEarlier(m, xs, x, i);
      ThreeEarlier(m, xs, x, j);
      OpenNear(r, x);
    } else {
      if r.recovering {
        var i: nat :| i + 3 + r.stable <= |xs| && ThreeStable(m, xs, i);
        ThreeEarlier(m, xs, x, i);
      }
      if !r.stopped {
        NearStep(r, x);
        PollExclusive(r, x);
        if r.stable == 2 && x.Seen? && Stable(r.previous, x.snapshot) {
          ThirdStable(m, xs, x);
        }
      }
    }
  }

  lemma OpenNear(r: Monitor, x: Sample)
    requires !r.blocked && !r.recovering
    ensures !Poll(r, x).recovering
  {
  }

  lemma {:induction false} Reopening(m: Monitor, xs: seq<Sample>)
    requires m.blocked && !m.recovering && m.stable == 0 && NearThroughout(xs)
    ensures Counted(m, xs) && Earned(m, xs) && Exclusive(Run(m, xs))
    decreases |xs|
  {
    if xs != [] {
      hide Run, Counted, Earned, Poll;
      var front := xs[..|xs| - 1];
      var x := xs[|xs| - 1];
      assert xs == front + [x];
      Reopening(m, front);
      CountedStep(m, front, x);
      EarnedStep(m, front, x);
      RunOne(m, front, x);
      PollExclusive(Run(m, front), x);
    }
  }

  // From the moment admission is blocked: as long as no sample falls below 85 percent, it is open again only
  // after two separate runs of three stable samples in a row.
  lemma ReopeningNeedsTwoRuns(m: Monitor, xs: seq<Sample>)
    requires m.blocked && !m.recovering && m.stable == 0 && NearThroughout(xs)
    requires !Run(m, xs).blocked && !Run(m, xs).recovering
    ensures exists i, j :: 0 <= i && i + 3 <= j && j + 3 <= |xs| && ThreeStable(m, xs, i) && ThreeStable(m, xs, j)
  {
    hide Run, StableAt;
    Reopening(m, xs);
  }

  // ---- pressure ----------------------------------------------------------------------------------------------

  ghost predicate PressingAt(m: Monitor, xs: seq<Sample>, k: nat, group: Group) {
    k < |xs| && xs[k].Seen? && xs[k].snapshot.group == group && Pressing(Run(m, xs[..k]).previous, xs[k].snapshot)
  }

  // The last three samples press, all of one group.
  ghost predicate ThreePressing(m: Monitor, xs: seq<Sample>, group: Group) {
    && |xs| >= 3 && PressingAt(m, xs, |xs| - 3, group) && PressingAt(m, xs, |xs| - 2, group)
    && PressingAt(m, xs, |xs| - 1, group)
  }

  ghost predicate Pressed(m: Monitor, xs: seq<Sample>, n: nat, group: Option<Group>) {
    && n <= |xs| && (n > 0 ==> group.Some?)
    && forall k :: |xs| - n <= k < |xs| ==> PressingAt(m, xs, k, group.value)
  }

  lemma PressingEarlier(m: Monitor, xs: seq<Sample>, x: Sample, k: nat, group: Group)
    requires PressingAt(m, xs, k, group)
    ensures PressingAt(m, xs + [x], k, group)
  {
    assert (xs + [x])[..k] == xs[..k];
  }

  lemma PollPressure(r: Monitor, x: Sample)
    requires !r.stopped
    ensures var t := Poll(r, x);
            && t.stopped == (t.pressure >= PRESSURE_SAMPLES)
            && (t.pressure > 0 ==>
                  && x.Seen? && Pressing(r.previous, x.snapshot) && t.pressureGroup == Some(x.snapshot.group)
                  && (t.pressure == 1 || (t.pressure == r.pressure + 1 && r.pressureGroup == t.pressureGroup)))
  {
    hide Admit, Pressing;
    if x.Seen? {
      AdmitKeepsPressure(r, x.snapshot);
    }
  }

  lemma AdmitKeepsPressure(r: Monitor, s: Snapshot)
    ensures var t := Admit(r, s); t.pressure == r.pressure && t.pressureGroup == r.pressureGroup && t.stopped == r.stopped
  {
  }

  lemma {:induction false} PressureCounted(m: Monitor, xs: seq<Sample>)
    requires !m.stopped && m.pressure == 0
    ensures !Run(m, xs).stopped ==>
              Run(m, xs).pressure < PRESSURE_SAMPLES && Pressed(m, xs, Run(m, xs).pressure, Run(m, xs).pressureGroup)
    ensures xs != [] && Run(m, xs).stopped && !Run(m, xs[..|xs| - 1]).stopped ==>
              Run(m, xs).pressure == PRESSURE_SAMPLES && Pressed(m, xs, PRESSURE_SAMPLES, Run(m, xs).pressureGroup)
    decreases |xs|
  {
    if xs != [] {
      var front := xs[..|xs| - 1];
      var x := xs[|xs| - 1];
      assert xs == front + [x];
      hide Run, Poll, Pressing;
      PressureCounted(m, front);
      var r := Run(m, front);
      RunOne(m, front, x);
      if r.stopped {
        StoppedStays(r, x);
      } else {
        PollPressure(r, x);
        var t := Poll(r, x);
        if t.pressure > 0 {
          forall k: nat | |xs| - t.pressure <= k < |xs| ensures PressingAt(m, xs, k, t.pressureGroup.value) {
            if k < |front| {
              PressingEarlier(m, front, x, k, t.pressureGroup.value);
            }
          }
        }
      }
    }
  }

  // The runtime gives up only at the third pressing sample of one group in a row.
  lemma PressureNeedsThree(xs: seq<Sample>)
    requires xs != [] && Run(CALM, xs).stopped && !Run(CALM, xs[..|xs| - 1]).stopped
    ensures exists group: Group :: ThreePressing(CALM, xs, group)
  {
    hide Run, PressingAt;
    PressureCounted(CALM, xs);
    assert ThreePressing(CALM, xs, Run(CALM, xs).pressureGroup.value);
  }

  // While reclaim is throttling, admission that is not open stays so until usage falls to 75 percent.
  lemma ClosedWhileThrottling(m: Monitor, s: Snapshot)
    requires !m.stopped && (m.blocked || m.recovering) && m.stable < STABLE_SAMPLES
    requires Throttling(m.previous, s) && !Relaxed(s)
    ensures Poll(m, Seen(s)).blocked || Poll(m, Seen(s)).recovering
  {
  }

  // At 75 percent or below, one sample opens admission.
  lemma RelaxedOpens(m: Monitor, s: Snapshot)
    requires !m.stopped && Relaxed(s)
    ensures !Poll(m, Seen(s)).blocked && !Poll(m, Seen(s)).recovering
  {
  }

  // ---- when the monitor stops ----------------------------------------------------------------------------------

  // The last `k` samples press, all of one group.
  ghost predicate LastPress(m: Monitor, xs: seq<Sample>, k: nat, group: Group) {
    k <= |xs| && forall i: nat :: |xs| - k <= i < |xs| ==> PressingAt(m, xs, i, group)
  }

  lemma PressingStep(r: Monitor, s: Snapshot)
    requires !r.stopped && Pressing(r.previous, s)
    ensures var t := Poll(r, Seen(s));
            && t.pressureGroup == Some(s.group) && t.stopped == (t.pressure >= PRESSURE_SAMPLES)
            && t.pressure >= (if r.pressureGroup == Some(s.group) then r.pressure + 1 else 1)
  {
    AdmitKeepsPressure(r, s);
    hide Admit, Pressing;
  }

  lemma {:induction false} PressureAdds(m: Monitor, xs: seq<Sample>, k: nat, group: Group)
    requires LastPress(m, xs, k, group) && !Run(m, xs).stopped && k > 0
    ensures Run(m, xs).pressure >= k && Run(m, xs).pressureGroup == Some(group)
    decreases k
  {
    var front, x := xs[..|xs| - 1], xs[|xs| - 1];
    assert xs == front + [x];
    hide Run, Poll, Pressing;
    RunOne(m, front, x);
    var r := Run(m, front);
    assert PressingAt(m, xs, |xs| - 1, group);
    if r.stopped {
      StoppedStays(r, x);
    } else {
      PressingStep(r, x.snapshot);
      if k > 1 {
        forall i: nat | |front| - (k - 1) <= i < |front| ensures PressingAt(m, front, i, group) {
          assert PressingAt(m, xs, i, group);
          assert xs[..i] == front[..i];
        }
        PressureAdds(m, front, k - 1, group);
      }
    }
  }

  lemma PressureBounded(r: Monitor, x: Sample)
    requires !r.stopped
    ensures Poll(r, x).stopped || Poll(r, x).pressure < PRESSURE_SAMPLES
  {
    hide Admit, Pressing;
    if x.Seen? { AdmitKeepsPressure(r, x.snapshot); }
  }

  lemma ThreeStop(xs: seq<Sample>, group: Group)
    requires ThreePressing(CALM, xs, group)
    ensures Run(CALM, xs).stopped
  {
    hide PressingAt, Poll, Run;
    if !Run(CALM, xs).stopped {
      assert LastPress(CALM, xs, 3, group);
      PressureAdds(CALM, xs, 3, group);
      var front, x := xs[..|xs| - 1], xs[|xs| - 1];
      assert xs == front + [x];
      RunOne(CALM, front, x);
      if Run(CALM, front).stopped { StoppedStays(Run(CALM, front), x); } else { PressureBounded(Run(CALM, front), x); }
    }
  }

  lemma {:induction false} StaysStopped(m: Monitor, xs: seq<Sample>, n: nat)
    requires n <= |xs| && Run(m, xs[..n]).stopped
    ensures Run(m, xs).stopped
    decreases |xs|
  {
    if n == |xs| {
      assert xs[..n] == xs;
    } else {
      var front, x := xs[..|xs| - 1], xs[|xs| - 1];
      assert xs == front + [x] && front[..n] == xs[..n];
      hide Run, Poll;
      RunOne(m, front, x);
      StaysStopped(m, front, n);
      StoppedStays(Run(m, front), x);
    }
  }

  lemma {:induction false} StoppedOnce(xs: seq<Sample>)
    requires Run(CALM, xs).stopped
    ensures exists n: nat, group :: n <= |xs| && ThreePressing(CALM, xs[..n], group)
    decreases |xs|
  {
    hide Poll, ThreePressing;
    assert xs != [];
    var front := xs[..|xs| - 1];
    if Run(CALM, front).stopped {
      StoppedOnce(front);
      var n: nat, group :| n <= |front| && ThreePressing(CALM, front[..n], group);
      assert front[..n] == xs[..n];
    } else {
      PressureNeedsThree(xs);
      assert xs[..|xs|] == xs;
    }
  }

  // The runtime gives up exactly when three samples in a row press, all of one group.
  lemma StoppedExactly(xs: seq<Sample>)
    ensures Run(CALM, xs).stopped <==> exists n: nat, group :: n <= |xs| && ThreePressing(CALM, xs[..n], group)
  {
    hide Run, ThreePressing;
    if Run(CALM, xs).stopped {
      StoppedOnce(xs);
    }
    if exists n: nat, group :: n <= |xs| && ThreePressing(CALM, xs[..n], group) {
      var n: nat, group :| n <= |xs| && ThreePressing(CALM, xs[..n], group);
      ThreeStop(xs[..n], group);
      StaysStopped(CALM, xs, n);
    }
  }

  // ---- when admission closes and reopens ---------------------------------------------------------------------------

  // Open admission is closed by one sample exactly at the limit, at 85 percent of a hard one, or at 85 percent when
  // reclaim has throttled since the last sample of the same group and limit.
  lemma ClosesExactly(m: Monitor, s: Snapshot)
    requires !m.stopped && !m.blocked && !m.recovering
    ensures var near := s.current * 20 >= Limit(s) * 17;
            var throttled := m.previous.Some? && m.previous.value.group == s.group && m.previous.value.high == s.high
                             && s.events > m.previous.value.events;
            Poll(m, Seen(s)).blocked <==> s.current >= Limit(s) || (near && (s.hard || throttled))
  {
  }

  // Closed admission is open after a sample below 85 percent, and above 75 percent only without throttling; of the
  // samples at 85 percent or more only the third stable one moves it on, from blocked to recovering and from there
  // to open. Recovering admission is blocked again by every sample at the limit, and by every one at 85 percent that
  // is of a hard limit, or differs from the one before in more than being smaller.
  lemma MovesExactly(m: Monitor, s: Snapshot)
    requires !m.stopped && Exclusive(m) && (m.blocked || m.recovering) && m.stable < STABLE_SAMPLES
    ensures var t := Poll(m, Seen(s));
            var near := s.current * 20 >= Limit(s) * 17;
            var forced := s.current >= Limit(s) || (near && s.hard);
            var same := m.previous.Some? && m.previous.value.group == s.group && m.previous.value.high == s.high;
            var throttled := same && s.events > m.previous.value.events;
            var stable := same && s.events == m.previous.value.events && s.current <= m.previous.value.current;
            var third := stable && m.stable == 2 && !forced;
            && (!t.blocked && !t.recovering <==>
                  (!near && (s.current * 4 <= Limit(s) * 3 || !throttled)) || (m.recovering && third))
            && (m.blocked ==> (t.recovering <==> near && third))
            && (m.recovering ==> (t.blocked <==> forced || (near && same && !stable)))
  {
  }

  // A sample presses exactly if it is at 90 percent of the limit, and at the limit or throttled since the last one.
  lemma PressesExactly(m: Monitor, s: Snapshot)
    requires !m.stopped
    ensures Poll(m, Seen(s)).pressure > 0 <==>
              && s.current * 10 >= s.high * 9
              && (s.current >= s.high || (m.previous.Some? && m.previous.value.group == s.group && m.previous.value.high == s.high
                                           && s.events > m.previous.value.events))
  {
    hide Admit;
  }

  // How far reopening has come: blocked, recovering, open.
  function Progress(m: Monitor): nat {
    if m.blocked then m.stable else if m.recovering then 3 + m.stable else 6
  }

  // A stable sample that neither is at the limit nor at 85 percent of a hard one.
  predicate Harmless(previous: Option<Snapshot>, x: Sample) {
    x.Seen? && Stable(previous, x.snapshot) && !AtLimit(x.snapshot) && !(x.snapshot.hard && NearLimit(x.snapshot))
  }

  lemma StableProgress(r: Monitor, x: Sample)
    requires Exclusive(r) && !r.stopped && Harmless(r.previous, x) && r.stable < STABLE_SAMPLES
    ensures Progress(Poll(r, x)) > Progress(r) || Progress(Poll(r, x)) >= 6
  {
  }

  ghost predicate AllHarmless(m: Monitor, xs: seq<Sample>) {
    forall k: nat :: k < |xs| ==> Harmless(Run(m, xs[..k]).previous, xs[k])
  }

  lemma {:induction false} StableSamplesProgress(m: Monitor, xs: seq<Sample>)
    requires Exclusive(m) && AllHarmless(m, xs) && !Run(m, xs).stopped && m.stable < STABLE_SAMPLES
    ensures Progress(Run(m, xs)) >= |xs| || Progress(Run(m, xs)) >= 6
    decreases |xs|
  {
    if xs != [] {
      var front, x := xs[..|xs| - 1], xs[|xs| - 1];
      assert xs == front + [x];
      hide Run, Poll, Harmless, Progress;
      RunOne(m, front, x);
      if Run(m, front).stopped { StoppedStays(Run(m, front), x); }
      forall k: nat | k < |front| ensures Harmless(Run(m, front[..k]).previous, front[k]) {
        assert front[..k] == xs[..k] && front[k] == xs[k];
      }
      StableSamplesProgress(m, front);
      NeverBoth(m, front);
      StableSmall(m, front);
      assert Harmless(Run(m, xs[..|front|]).previous, xs[|front|]);
      StableProgress(Run(m, front), x);
    }
  }

  // Six such samples in a row open admission, whatever it was before, unless the monitor stops.
  lemma SixStableReopen(m: Monitor, xs: seq<Sample>)
    requires Exclusive(m) && AllHarmless(m, xs) && |xs| >= 6 && m.stable < STABLE_SAMPLES && !Run(m, xs).stopped
    ensures !Run(m, xs).blocked && !Run(m, xs).recovering
  {
    StableSamplesProgress(m, xs);
    StableSmall(m, xs);
    hide Run, AllHarmless;
  }

  lemma {:induction false} StableSmall(m: Monitor, xs: seq<Sample>)
    requires m.stable < STABLE_SAMPLES
    ensures Run(m, xs).stable < STABLE_SAMPLES
    decreases |xs|
  {
    if xs != [] {
      StableSmall(m, xs[..|xs| - 1]);
      StepSmall(Run(m, xs[..|xs| - 1]), xs[|xs| - 1]);
      hide Poll;
    }
  }

  lemma StepSmall(r: Monitor, x: Sample)
    requires r.stable < STABLE_SAMPLES
    ensures Poll(r, x).stable < STABLE_SAMPLES
  {
  }

  // A poll that finds nothing to measure, or fails, makes the next sample the first of its kind: it counts neither
  // as stable nor as throttled, and at most as the first pressing one.
  lemma GapStartsOver(m: Monitor, gap: Sample, s: Snapshot)
    requires !m.stopped && !gap.Seen?
    ensures var g := Poll(m, gap);
            var t := Poll(g, Seen(s));
            && g.blocked == m.blocked && g.recovering == m.recovering && !t.stopped && t.stable == 0
            && (t.pressure == 1 <==> s.current >= s.high) && t.pressure <= 1
  {
  }
}
