/** Runs in which each race of the activation fence happens. */
module ActivationExamples {
  import opened Lists
  import opened ActivationModel
  import opened ActivationProofs
  import opened ActivationRaces

  const SLUG: Key := "project/function"
  const FIRST := Authority("a", 1, None, false)
  const SECOND := Authority("b", 2, Some("a"), false)
  const BOOT := Runtime(map[], [], map[], 0, 0, map[], map[])
  const FENCED := BOOT.(objects := [Fence(SLUG, FIRST, None, true)], fences := map[SLUG := 0])

  lemma {:induction false} RunChain(r: Runtime, es: seq<Event>, fs: seq<Event>, m: Runtime, t: Runtime)
    requires Run(r, es) == m && Run(m, fs) == t
    ensures Run(r, es + fs) == t
  {
    hide Step;
    RunSplit(r, es, fs);
  }

  lemma RunTwo(r: Runtime, a: Event, b: Event)
    ensures Run(r, [a, b]) == Step(Step(r, a), b)
  {
    hide Step;
    RunOne(r, [a], b);
    assert [a] + [b] == [a, b] && [a][1..] == [];
  }

  lemma ReachableBy(start: Runtime, es: seq<Event>, r: Runtime, g: Id -> nat)
    requires Initial(start, g) && Admissible(es, g) && Run(start, es) == r
    ensures Reachable(r, g)
  {
    hide Run, Initial, Admissible;
  }

  const BEGUN := BOOT.(objects := [Fence(SLUG, FIRST, None, false)], fences := map[SLUG := 0])

  lemma FirstIsFenced()
    ensures Run(BOOT, [ReadForBegin(0, SLUG, FIRST), Begin(0)]) == BEGUN
    ensures Run(BEGUN, [Settle(0, true)]) == FENCED
  {
    RunTwo(BOOT, ReadForBegin(0, SLUG, FIRST), Begin(0));
    var r := Step(BOOT, ReadForBegin(0, SLUG, FIRST));
    assert r.begins == map[0 := Opening(SLUG, FIRST, None)];
    assert Step(r, Begin(0)) == BEGUN by { assert r.begins - {0} == map[]; }
    assert [Settle(0, true)][1..] == [];
  }

  // An abort that has read the manifest meets the publication of its candidate.
  const ABORTING := FENCED.(pending := map[0 := Pending(SLUG, "a", Some(0), false, Saw(None))])
  const ABORT_MET := ABORTING.(published := map[SLUG := FIRST])

  lemma AbortIsMet()
    ensures Run(FENCED, [Ask(0, SLUG, "a", false), Read(0)]) == ABORTING
    ensures Run(ABORTING, [Publish(SLUG)]) == ABORT_MET
  {
    RunTwo(FENCED, Ask(0, SLUG, "a", false), Read(0));
    assert [Publish(SLUG)][1..] == [];
  }

  lemma AbortRaceHappens(g: Id -> nat)
    requires g("a") == 1
    ensures Reachable(ABORT_MET, g) && LiftsPublished(ABORT_MET, 0) && Decided(ABORT_MET, ABORT_MET.pending[0]).status == Aborted
  {
    hide Run, Step;
    var begun := [ReadForBegin(0, SLUG, FIRST), Begin(0)];
    var settled := begun + [Settle(0, true)];
    var asked := settled + [Ask(0, SLUG, "a", false), Read(0)];
    assert LiftsPublished(ABORT_MET, 0) by { LiftsPublishedWhen(ABORT_MET, 0); }
    FirstIsFenced();
    AbortIsMet();
    RunChain(BOOT, begun, [Settle(0, true)], BEGUN, FENCED);
    RunChain(BOOT, settled, [Ask(0, SLUG, "a", false), Read(0)], FENCED, ABORTING);
    RunChain(BOOT, asked, [Publish(SLUG)], ABORTING, ABORT_MET);
    assert Initial(BOOT, g) && Admissible(asked + [Publish(SLUG)], g);
  }

  // A repeated commit of the first candidate meets the second one, fenced and published in the meantime.
  const COMMIT := Pending(SLUG, "a", Some(0), true, Unread)
  const READ_FIRST := COMMIT.(reading := Saw(Some(FIRST)))
  const PUBLISHED := FENCED.(published := map[SLUG := FIRST])
  const ASKED := PUBLISHED.(pending := map[0 := COMMIT, 1 := COMMIT])
  const INFORMED := PUBLISHED.(pending := map[0 := READ_FIRST, 1 := READ_FIRST])
  const REOPENED := PUBLISHED.(
    fences := map[], begins := map[0 := Opening(SLUG, SECOND, Some(FIRST))], pending := map[1 := READ_FIRST])
  const REFENCED := PUBLISHED.(
    objects := [Fence(SLUG, FIRST, None, true), Fence(SLUG, SECOND, None, true)],
    fences := map[SLUG := 1], pending := map[1 := READ_FIRST])
  const COMMIT_MET := REFENCED.(published := map[SLUG := SECOND])

  lemma CommitsAreAsked()
    ensures Run(FENCED, [Publish(SLUG)]) == PUBLISHED
    ensures Run(PUBLISHED, [Ask(0, SLUG, "a", true), Ask(1, SLUG, "a", true)]) == ASKED
    ensures Run(ASKED, [Read(0), Read(1)]) == INFORMED
  {
    assert [Publish(SLUG)][1..] == [];
    RunTwo(PUBLISHED, Ask(0, SLUG, "a", true), Ask(1, SLUG, "a", true));
    RunTwo(ASKED, Read(0), Read(1));
  }

  lemma SecondIsOpened()
    ensures Run(INFORMED, [Decide(0), ReadForBegin(0, SLUG, SECOND)]) == REOPENED
  {
    RunTwo(INFORMED, Decide(0), ReadForBegin(0, SLUG, SECOND));
    assert Decided(INFORMED, READ_FIRST) == Decision(Committed, true);
    assert Step(INFORMED, Decide(0)).fences == map[];
    assert Step(INFORMED, Decide(0)).pending == map[1 := READ_FIRST];
  }

  lemma SecondIsFenced()
    ensures Run(REOPENED, [Begin(0), Settle(1, true)]) == REFENCED
    ensures Run(REFENCED, [Publish(SLUG)]) == COMMIT_MET
  {
    RunTwo(REOPENED, Begin(0), Settle(1, true));
    assert REOPENED.begins - {0} == map[];
    assert [Publish(SLUG)][1..] == [];
  }

  lemma CommitIsMet()
    ensures LiftsForeign(COMMIT_MET, 1) && LiftsPublished(COMMIT_MET, 1) && !OwnCommit(COMMIT_MET, 1)
  {
    LiftsPublishedWhen(COMMIT_MET, 1);
    StaleDecision(COMMIT_MET, 1);
  }

  function StaleCommit(): seq<Event> {
    [ReadForBegin(0, SLUG, FIRST), Begin(0)] + [Settle(0, true)] + [Publish(SLUG)]
    + [Ask(0, SLUG, "a", true), Ask(1, SLUG, "a", true)] + [Read(0), Read(1)]
    + [Decide(0), ReadForBegin(0, SLUG, SECOND)] + [Begin(0), Settle(1, true)] + [Publish(SLUG)]
  }

  lemma StaleCommitRuns()
    ensures Run(BOOT, StaleCommit()) == COMMIT_MET
  {
    var begun := [ReadForBegin(0, SLUG, FIRST), Begin(0)];
    var settled := begun + [Settle(0, true)];
    var published := settled + [Publish(SLUG)];
    var asked := published + [Ask(0, SLUG, "a", true), Ask(1, SLUG, "a", true)];
    var read := asked + [Read(0), Read(1)];
    var decided := read + [Decide(0), ReadForBegin(0, SLUG, SECOND)];
    var fenced := decided + [Begin(0), Settle(1, true)];
    FirstIsFenced();
    CommitsAreAsked();
    SecondIsOpened();
    SecondIsFenced();
    hide Run, Step;
    RunChain(BOOT, begun, [Settle(0, true)], BEGUN, FENCED);
    RunChain(BOOT, settled, [Publish(SLUG)], FENCED, PUBLISHED);
    RunChain(BOOT, published, [Ask(0, SLUG, "a", true), Ask(1, SLUG, "a", true)], PUBLISHED, ASKED);
    RunChain(BOOT, asked, [Read(0), Read(1)], ASKED, INFORMED);
    RunChain(BOOT, read, [Decide(0), ReadForBegin(0, SLUG, SECOND)], INFORMED, REOPENED);
    RunChain(BOOT, decided, [Begin(0), Settle(1, true)], REOPENED, REFENCED);
    RunChain(BOOT, fenced, [Publish(SLUG)], REFENCED, COMMIT_MET);
  }

  lemma StaleCommitIsAdmissible(g: Id -> nat)
    requires g("a") == 1 && g("b") == 2
    ensures Initial(BOOT, g) && Admissible(StaleCommit(), g)
  {
  }

  lemma StaleCommitHappens(g: Id -> nat)
    requires g("a") == 1 && g("b") == 2
    ensures Reachable(COMMIT_MET, g) && LiftsForeign(COMMIT_MET, 1) && LiftsPublished(COMMIT_MET, 1) && !OwnCommit(COMMIT_MET, 1)
  {
    hide *;
    CommitIsMet();
    StaleCommitRuns();
    StaleCommitIsAdmissible(g);
    ReachableBy(BOOT, StaleCommit(), COMMIT_MET, g);
  }

  // A repeated begin of the first candidate goes on after that candidate was published and committed, and
  // puts its fence in force once more.
  const OPENED_TWICE := BOOT.(begins := map[0 := Opening(SLUG, FIRST, None), 1 := Opening(SLUG, FIRST, None)])
  const FENCED_ONCE := FENCED.(begins := map[1 := Opening(SLUG, FIRST, None)])
  const COMMITTING := FENCED_ONCE.(published := map[SLUG := FIRST], pending := map[0 := COMMIT])
  const SETTLED := COMMITTING.(fences := map[], pending := map[])
  const FENCED_AGAIN := SETTLED.(
    objects := [Fence(SLUG, FIRST, None, true), Fence(SLUG, FIRST, None, false)], fences := map[SLUG := 1], begins := map[])

  lemma FirstIsFencedOnce()
    ensures Run(BOOT, [ReadForBegin(0, SLUG, FIRST), ReadForBegin(1, SLUG, FIRST)]) == OPENED_TWICE
    ensures Run(OPENED_TWICE, [Begin(0), Settle(0, true)]) == FENCED_ONCE
  {
    RunTwo(BOOT, ReadForBegin(0, SLUG, FIRST), ReadForBegin(1, SLUG, FIRST));
    RunTwo(OPENED_TWICE, Begin(0), Settle(0, true));
    assert OPENED_TWICE.begins - {0} == map[1 := Opening(SLUG, FIRST, None)];
  }

  lemma FirstIsPublished()
    ensures Run(FENCED_ONCE, [Publish(SLUG), Ask(0, SLUG, "a", true)]) == COMMITTING
  {
    RunTwo(FENCED_ONCE, Publish(SLUG), Ask(0, SLUG, "a", true));
  }

  lemma FirstIsCommitted()
    ensures Run(COMMITTING, [Read(0), Decide(0)]) == SETTLED
  {
    RunTwo(COMMITTING, Read(0), Decide(0));
    var r := Step(COMMITTING, Read(0));
    assert r.pending == map[0 := READ_FIRST] && Decided(r, READ_FIRST) == Decision(Committed, true);
    assert r.pending - {0} == map[] && r.fences - {SLUG} == map[];
  }

  lemma FirstIsFencedAgain()
    ensures Step(SETTLED, Begin(1)) == FENCED_AGAIN && !OnTime(SETTLED, Begin(1))
  {
    assert SETTLED.begins - {1} == map[];
  }

  lemma LateBeginHappens(g: Id -> nat)
    requires g("a") == 1
    ensures Reachable(SETTLED, g) && CurrentId(SETTLED, SLUG) == Some("a") && SETTLED.fences == map[]
    ensures Step(SETTLED, Begin(1)) == FENCED_AGAIN && !OnTime(SETTLED, Begin(1))
  {
    var begun := [ReadForBegin(0, SLUG, FIRST), ReadForBegin(1, SLUG, FIRST)];
    var fenced := begun + [Begin(0), Settle(0, true)];
    var asked := fenced + [Publish(SLUG), Ask(0, SLUG, "a", true)];
    var all := asked + [Read(0), Decide(0)];
    FirstIsFencedOnce();
    FirstIsPublished();
    FirstIsCommitted();
    FirstIsFencedAgain();
    hide Run, Step, OnTime;
    RunChain(BOOT, begun, [Begin(0), Settle(0, true)], OPENED_TWICE, FENCED_ONCE);
    RunChain(BOOT, fenced, [Publish(SLUG), Ask(0, SLUG, "a", true)], FENCED_ONCE, COMMITTING);
    RunChain(BOOT, asked, [Read(0), Decide(0)], COMMITTING, SETTLED);
    assert Initial(BOOT, g) && Admissible(all, g);
    ReachableBy(BOOT, all, SETTLED, g);
  }
}
