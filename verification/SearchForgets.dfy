/**
 A run in which a removal without a revision takes a chat from a complete index: the chat
 is found gone, made again and published by another replica, and then dropped, and the
 index without it is published as complete through the very write that made it.
 */
module SearchForgets {
  import opened Options
  import opened SearchIndex
  import opened SearchCoverage
  import opened SearchWriter
  import opened SearchProtocol
  import opened SearchRuns

  const TAG := ETag(1, None)
  const MADE := SearchCoverage.Write(0, false, TAG)   // the write that makes the chat again
  const GONE := GoneUpdate(0, 0)
  const STORE := Update(0, false, TAG, 0, 1, [])
  const HELD: Index := map[0 := Entry(TAG, 1, 0)]
  const FIRST := Record(1, Some(0), false, true, 0)
  const SECOND := Record(1, Some(1), false, true, 0)

  const CHECKED := Checking([GONE], map[0 := false])

  /** Two replicas and what they share. */
  function World(log: Log, enqueued: set<int>, history: seq<Record>, stored: map<Key, Index>, x: Process, y: Process, spoiled: bool): State {
    State(log, enqueued, history, stored, {}, map[0 := x, 1 := y], spoiled)
  }

  function In(phase: Phase): Process { Process(map[], phase, None, {}) }

  ghost predicate Leads(s: State, step: Step, t: State) { Enabled(s, step) && Next(s, step) == t }

  lemma Both(x: Process, y: Process, z: Process)
    ensures map[0 := x, 1 := y][0 := z] == map[0 := z, 1 := y] && map[0 := x, 1 := y][1 := z] == map[0 := x, 1 := z]
  {}

  const S0 := World([], {}, [START], map[], FRESH, FRESH, false)
  const S1 := World([], {}, [START], map[], FRESH.(pending := map[0 := GONE]), FRESH, false)
  const S2 := World([], {}, [START], map[], In(Checking([GONE], map[])), FRESH, false)
  const S3 := World([], {}, [START], map[], In(CHECKED), FRESH, false)
  const S4 := World([MADE], {}, [START], map[], In(CHECKED), FRESH, false)
  const S5 := World([MADE], {1}, [START], map[], In(CHECKED), FRESH.(pending := map[0 := STORE]), false)
  const S6 := World([MADE], {1}, [START], map[], In(CHECKED), In(Checking([STORE], map[])), false)

  const READ := Merging([STORE], map[], 0, 1, LoadMissing, 0, Work(map[], false, {}, map[]), false)
  const TOOK := Merging([STORE], map[], 0, 1, LoadMissing, 1, Work(HELD, true, {1}, map[]), false)

  const S7 := World([MADE], {1}, [START], map[], In(CHECKED), In(READ), false)
  const S8 := World([MADE], {1}, [START], map[], In(CHECKED), In(TOOK), false)
  const S9 := World([MADE], {1}, [START], map[0 := HELD], In(CHECKED), In(Saved([STORE], map[], 0, 1, false, 0, map[])), false)
  const S10 := World([MADE], {1}, [START, FIRST], map[0 := HELD], In(CHECKED), FRESH, false)

  const LOADED := Merging([GONE], map[0 := false], 1, 1, LoadOk, 0, Work(HELD, false, {}, map[]), true)
  const DROPPED := Merging([GONE], map[0 := false], 1, 1, LoadOk, 1, Work(map[], true, {}, map[]), true)

  const S11 := World([MADE], {1}, [START, FIRST], map[0 := HELD], In(LOADED), FRESH, false)
  const S12 := World([MADE], {1}, [START, FIRST], map[0 := HELD], In(DROPPED), FRESH, true)
  const S13 := World([MADE], {1}, [START, FIRST], map[0 := HELD, 1 := map[]], In(Saved([GONE], map[0 := false], 1, 1, false, 1, map[])), FRESH, true)
  const S14 := World([MADE], {1}, [START, FIRST, SECOND], map[0 := HELD, 1 := map[]], FRESH.(drop := {0}), FRESH, true)

  lemma LatestMade()
    ensures Latest([], 0) == 0 && Latest([MADE], 0) == 1
  {}

  lemma FoundGone()
    ensures Leads(S0, EnqueueGone(0, 0, 0), S1) && Leads(S1, TakeUp(0, [GONE]), S2) && Leads(S2, Check(0, 0, false), S3)
  {
    Both(FRESH, FRESH, FRESH.(pending := map[0 := GONE]));
    Both(S1.procs[0], FRESH, In(Checking([GONE], map[])));
    Both(S2.procs[0], FRESH, In(CHECKED));
    assert [GONE][0].id == 0;
    LatestMade();
  }

  lemma MadeAgain()
    ensures Leads(S3, Step.Write(MADE), S4) && Leads(S4, Enqueue(1, 1, 0), S5) && Leads(S5, TakeUp(1, [STORE]), S6)
  {
    assert [] + [MADE] == [MADE];
    Both(In(CHECKED), FRESH, FRESH.(pending := map[0 := STORE]));
    Both(In(CHECKED), S5.procs[1], In(Checking([STORE], map[])));
    assert [STORE][0].id == 0;
  }

  lemma InHandStore()
    ensures InHand([STORE]) == {1} && ToSet(Revisions(STORE)) == {1}
  {
    assert Revisions(STORE) == [1];
    assert [STORE][0] == STORE;
    InHandMore([STORE], 0);
    assert [STORE][..0] == [] && [STORE][..1] == [STORE];
  }

  lemma Taken()
    ensures Leads(S6, Read(1, LoadMissing, false), S7) && Leads(S7, MergeNext(1, Failed, true), S8)
  {
    Both(In(CHECKED), In(Checking([STORE], map[])), In(READ));
    Both(In(CHECKED), In(READ), In(TOOK));
    InHandStore();
    assert {} + {1} == {1};
  }

  lemma Published()
    ensures Leads(S8, Save(1, 0, 1, false), S9) && Leads(S9, Publish(1, true), S10)
  {
    Both(In(CHECKED), In(TOOK), S9.procs[1]);
    Both(In(CHECKED), S9.procs[1], FRESH);
    assert FoldedInto(map[], map[]) == map[];
    assert {} + OldObject(S9, 0) == {};
  }

  lemma Dropped()
    ensures Leads(S10, Read(0, LoadOk, false), S11) && Spoils(S11, MergeNext(0, Failed, true)) && Leads(S11, MergeNext(0, Failed, true), S12)
  {
    Both(In(CHECKED), FRESH, In(LOADED));
    Both(In(LOADED), FRESH, In(DROPPED));
    LatestMade();
    assert HELD - {0} == map[];
    assert {} + ToSet(Revisions(GONE)) == {};
  }

  lemma PublishedWithout()
    ensures Leads(S12, Save(0, 1, 1, false), S13) && Leads(S13, Publish(0, true), S14)
  {
    Both(In(DROPPED), FRESH, S13.procs[0]);
    Both(S13.procs[0], FRESH, S14.procs[0]);
    assert map[0 := HELD][1 := map[]] == map[0 := HELD, 1 := map[]];
    assert FoldedInto(map[], map[]) == map[];
    assert {} + OldObject(S13, 1) == {0};
  }

  /** The run is one the protocol allows, its index claims the chat's write, and the chat is not in it. */
  lemma UnnumberedRemovalForgets()
    ensures exists ss: seq<State>, steps: seq<Step>, i: nat ::
              && Run(ss, steps) && i < |ss| && |ss[i].history| > 0
              && Last(ss[i]).claimed && !Last(ss[i]).incomplete && 0 < Latest(ss[i].log, 0) <= Last(ss[i]).covered
              && Last(ss[i]).names.Some? && Last(ss[i]).names.value in ss[i].stored
              && !ss[i].log[Latest(ss[i].log, 0) - 1].removed && 0 !in ss[i].stored[Last(ss[i]).names.value]
  {
    RunForgets();
    LatestMade();
    assert Last(SS[14]) == SECOND;
  }

  lemma RunForgets()
    ensures Run(SS, STEPS)
  {
    hide Enabled, Next, Spoils, World;
    FoundGone();
    MadeAgain();
    Taken();
    Published();
    Dropped();
    PublishedWithout();
    forall i | 0 <= i < |STEPS| ensures Leads(SS[i], STEPS[i], SS[i + 1]) {}
    assert IsInit(S0) by { StartsFresh(); }
  }

  lemma StartsFresh()
    ensures IsInit(S0)
  {}

  const SS: seq<State> := [S0, S1, S2, S3, S4, S5, S6, S7, S8, S9, S10, S11, S12, S13, S14]

  const STEPS: seq<Step> :=
    [EnqueueGone(0, 0, 0), TakeUp(0, [GONE]), Check(0, 0, false), Step.Write(MADE), Enqueue(1, 1, 0), TakeUp(1, [STORE]),
     Read(1, LoadMissing, false), MergeNext(1, Failed, true), Save(1, 0, 1, false), Publish(1, true),
     Read(0, LoadOk, false), MergeNext(0, Failed, true), Save(0, 1, 1, false), Publish(0, true)]
}
