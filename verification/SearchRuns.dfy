/**
 What publication promises over whole runs, for every interleaving of the replicas' steps.
 */
module SearchRuns {
  import opened Options
  import opened SearchIndex
  import opened SearchCoverage
  import opened SearchWriter
  import opened SearchProtocol
  import opened SearchSafety

  // ---- Whose object is whose ----

  /** The object a replica saved and is publishing, or tried to. */
  function KeyOf(x: Process): Option<Key> {
    if x.phase.Saved? then Some(x.phase.key) else if x.phase.Lost? then Some(x.phase.key) else None
  }

  predicate Unpublished(x: Process, k: Key) { x.phase.Saved? && x.phase.key == k }

  ghost predicate Unnamed(s: State, k: Key) {
    forall g :: 0 <= g < |s.history| ==> s.history[g].names != Some(k)
  }

  /** What a replica's own object and the objects it is to drop are to the rest. */
  ghost predicate OwnKeys(s: State, x: Process) {
    && (KeyOf(x).Some? ==> KeyOf(x).value in s.stored)
    && (x.phase.Saved? ==> Unnamed(s, x.phase.key) && x.phase.key !in s.deleted)
    && (x.phase.Lost? && x.phase.gen < |s.history| ==> s.history[x.phase.gen].names != Some(x.phase.key))
    && (forall k :: k in x.drop ==> k in s.stored && (|s.history| > 0 ==> Last(s).names != Some(k)))
  }

  /** Two replicas never hold the same object, nor does one drop what another is publishing. */
  ghost predicate Apart(x: Process, y: Process) {
    && (KeyOf(x).Some? ==> KeyOf(x) != KeyOf(y))
    && (forall k :: k in x.drop ==> !Unpublished(y, k))
  }

  ghost predicate NamedThere(s: State) {
    |s.history| > 0 && (Last(s).names.Some? ==> Last(s).names.value in s.stored && Last(s).names.value !in s.deleted)
  }

  ghost predicate KeysOk(s: State) {
    && NamedThere(s) && s.deleted <= s.stored.Keys
    && (forall g :: 0 <= g < |s.history| && s.history[g].names.Some? ==> s.history[g].names.value in s.stored)
    && (forall p :: p in s.procs ==> OwnKeys(s, s.procs[p]))
    && (forall p, q :: p in s.procs && q in s.procs && p != q ==> Apart(s.procs[p], s.procs[q]))
    && (forall p :: p in s.procs ==> forall k :: k in s.procs[p].drop ==> !Unpublished(s.procs[p], k))
  }

  /** A replica whose objects are as they were, in a world that is too. */
  lemma SameKeys(s: State, t: State, p: Proc)
    requires KeysOk(s) && p in s.procs && p in t.procs && t.procs == s.procs[p := t.procs[p]]
    requires t.history == s.history && t.stored == s.stored && t.deleted == s.deleted
    requires t.procs[p].drop == s.procs[p].drop && !t.procs[p].phase.Saved?
    requires t.procs[p].phase.Lost? ==>
               && KeyOf(t.procs[p]) == KeyOf(s.procs[p])
               && (t.procs[p].phase.gen < |s.history| ==> s.history[t.procs[p].phase.gen].names != KeyOf(s.procs[p]))
    ensures KeysOk(t)
  {
    hide Unnamed;
    forall q | q in t.procs ensures OwnKeys(t, t.procs[q]) { assert OwnKeys(s, s.procs[q]); UnnamedSame(s, t); }
    ApartLess(s, t, p);
  }

  lemma UnnamedSame(s: State, t: State)
    requires t.history == s.history
    ensures forall k :: Unnamed(t, k) == Unnamed(s, k)
  {}

  /** A replica that takes no new object stays apart from the others. */
  lemma ApartLess(s: State, t: State, p: Proc)
    requires KeysOk(s) && p in s.procs && p in t.procs && t.procs == s.procs[p := t.procs[p]]
    requires t.procs[p].drop <= s.procs[p].drop && !t.procs[p].phase.Saved?
    requires t.procs[p].phase.Lost? ==> KeyOf(t.procs[p]) == KeyOf(s.procs[p])
    ensures forall q, r :: q in t.procs && r in t.procs && q != r ==> Apart(t.procs[q], t.procs[r])
    ensures forall q :: q in t.procs ==> forall k :: k in t.procs[q].drop ==> !Unpublished(t.procs[q], k)
  {
    hide OwnKeys, NamedThere;
    forall q, r | q in t.procs && r in t.procs && q != r ensures Apart(t.procs[q], t.procs[r]) {
      assert Apart(s.procs[q], s.procs[r]);
    }
  }

  /** A replica leaves its phase with one more object to drop, which nothing names or publishes. */
  lemma DropsOne(s: State, t: State, p: Proc, k: Key)
    requires KeysOk(s) && p in s.procs && p in t.procs && t.procs == s.procs[p := t.procs[p]]
    requires t.history == s.history && t.stored == s.stored && t.deleted == s.deleted
    requires t.procs[p].drop <= s.procs[p].drop + {k} && KeyOf(t.procs[p]).None?
    requires k in s.stored && Last(s).names != Some(k)
    requires forall q :: q in s.procs && q != p ==> !Unpublished(s.procs[q], k)
    ensures KeysOk(t)
  {
    hide Unnamed, NamedThere;
    UnnamedSame(s, t);
    assert NamedThere(t) by { NamedSame(s, t); }
    forall q | q in t.procs ensures OwnKeys(t, t.procs[q]) { assert OwnKeys(s, s.procs[q]); }
    forall q, r | q in t.procs && r in t.procs && q != r ensures Apart(t.procs[q], t.procs[r]) {
      assert Apart(s.procs[q], s.procs[r]);
    }
  }

  lemma NamedSame(s: State, t: State)
    requires NamedThere(s) && t.history == s.history && t.stored == s.stored && t.deleted == s.deleted
    ensures NamedThere(t)
  {}

  lemma PlainKeys(s: State, step: Step)
    requires KeysOk(s) && Enabled(s, step)
    requires || step.TakeUp? || step.Check? || step.Read? || step.MergeNext? || step.Quit?
             || step.GiveUp? || step.FailSave? || step.Lose?
    ensures KeysOk(Next(s, step))
  {
    hide KeysOk, EtagsUnique, IsBatch, Added, FoldedInto, MergeOne, IsCovered, SnapshotOk, Exists, InHand;
    if step.Lose? { SavedUnnamed(s, step.p); }
    SameKeys(s, Next(s, step), step.p);
  }

  lemma SavedUnnamed(s: State, p: Proc)
    requires KeysOk(s) && p in s.procs && s.procs[p].phase.Saved?
    ensures forall g :: 0 <= g < |s.history| ==> s.history[g].names != Some(s.procs[p].phase.key)
    ensures s.procs[p].phase.key in s.stored && s.procs[p].phase.key !in s.deleted
  {
    assert OwnKeys(s, s.procs[p]);
  }

  /** A replica that only takes an update, or changes its cache. */
  lemma PhaseKept(s: State, t: State, p: Proc)
    requires KeysOk(s) && p in s.procs && p in t.procs && t.procs == s.procs[p := t.procs[p]]
    requires t.history == s.history && t.stored == s.stored && t.deleted == s.deleted
    requires t.procs[p].drop == s.procs[p].drop && t.procs[p].phase == s.procs[p].phase
    ensures KeysOk(t)
  {
    hide Unnamed, NamedThere;
    UnnamedSame(s, t);
    NamedSame(s, t);
    forall q | q in t.procs ensures OwnKeys(t, t.procs[q]) { assert OwnKeys(s, s.procs[q]); }
    ApartSame(s, t);
  }

  /** Replicas in the same phases with the same objects to drop are apart as they were. */
  lemma ApartSame(s: State, t: State)
    requires KeysOk(s) && forall q :: q in t.procs ==> q in s.procs && t.procs[q].phase == s.procs[q].phase && t.procs[q].drop <= s.procs[q].drop
    ensures forall q, r :: q in t.procs && r in t.procs && q != r ==> Apart(t.procs[q], t.procs[r])
    ensures forall q :: q in t.procs ==> forall k :: k in t.procs[q].drop ==> !Unpublished(t.procs[q], k)
  {
    hide OwnKeys, NamedThere;
    forall q, r | q in t.procs && r in t.procs && q != r ensures Apart(t.procs[q], t.procs[r]) {
      assert Apart(s.procs[q], s.procs[r]);
    }
  }

  /** The cache and the updates that wait have no part in whose object is whose. */
  lemma CacheKeys(s: State, step: Step)
    requires KeysOk(s) && Enabled(s, step) && (step.Evict? || step.Warm? || step.Enqueue? || step.EnqueueGone?)
    ensures KeysOk(Next(s, step))
  {
    hide KeysOk, CacheLoaded, Added, UpdateOf;
    PhaseKept(s, Next(s, step), step.p);
  }

  lemma RefuseKeys(s: State, p: Proc, retry: bool)
    requires KeysOk(s) && Enabled(s, Refuse(p, retry))
    ensures KeysOk(Next(s, Refuse(p, retry)))
  {
    hide OwnKeys, NamedThere;
    var k := s.procs[p].phase.key;
    SavedUnnamed(s, p);
    forall q | q in s.procs && q != p ensures !Unpublished(s.procs[q], k) { assert Apart(s.procs[p], s.procs[q]); }
    DropsOne(s, Next(s, Refuse(p, retry)), p, k);
  }

  lemma ReconcileKeys(s: State, p: Proc, read: bool)
    requires KeysOk(s) && Enabled(s, Reconcile(p, read))
    ensures KeysOk(Next(s, Reconcile(p, read)))
  {
    hide NamedThere, FoldedInto, Unnamed;
    var t, f := Next(s, Reconcile(p, read)), s.procs[p].phase;
    assert OwnKeys(s, s.procs[p]);
    if !read || (Last(s).names == Some(f.key) && s.history[f.gen].names.None?) {
      SameKeys(s, t, p);
    } else {
      var k := if Last(s).names == Some(f.key) then s.history[f.gen].names.value else f.key;
      forall q | q in s.procs && q != p ensures !Unpublished(s.procs[q], k) {
        assert Apart(s.procs[p], s.procs[q]) && OwnKeys(s, s.procs[q]);
        if k != f.key && s.procs[q].phase.Saved? { SavedUnnamed(s, q); }
      }
      DropsOne(s, t, p, k);
    }
  }

  lemma DeleteKeys(s: State, p: Proc, k: Key)
    requires KeysOk(s) && Enabled(s, Delete(p, k))
    ensures KeysOk(Next(s, Delete(p, k)))
  {
    hide OwnKeys, Apart;
    var t := Next(s, Delete(p, k));
    DropIsFree(s, p, k);
    forall q | q in t.procs ensures OwnKeys(t, t.procs[q]) { DeleteOwn(s, t, p, q, k); }
    ApartSame(s, t);
  }

  /** What a replica may drop is stored, not named, and nobody's to publish. */
  lemma DropIsFree(s: State, p: Proc, k: Key)
    requires KeysOk(s) && p in s.procs && k in s.procs[p].drop
    ensures k in s.stored && Last(s).names != Some(k)
    ensures forall q :: q in s.procs ==> !Unpublished(s.procs[q], k)
  {
    hide Unnamed;
    assert OwnKeys(s, s.procs[p]);
    forall q | q in s.procs ensures !Unpublished(s.procs[q], k) {
      if q != p { assert Apart(s.procs[p], s.procs[q]); }
    }
  }

  lemma DeleteOwn(s: State, t: State, p: Proc, q: Proc, k: Key)
    requires KeysOk(s) && p in s.procs && q in s.procs && q in t.procs && !Unpublished(s.procs[q], k)
    requires t.history == s.history && t.stored == s.stored && t.deleted == s.deleted + {k}
    requires t.procs[q].phase == s.procs[q].phase && t.procs[q].drop <= s.procs[q].drop
    ensures OwnKeys(t, t.procs[q])
  {
    hide Unnamed, NamedThere, Apart;
    assert OwnKeys(s, s.procs[q]);
    UnnamedSame(s, t);
  }

  lemma SaveKeys(s: State, p: Proc, key: Key, covered: int, cached: bool)
    requires KeysOk(s) && Enabled(s, Save(p, key, covered, cached))
    ensures KeysOk(Next(s, Save(p, key, covered, cached)))
  {
    hide IsCovered, Readable, CompleteThrough, OwnKeys, Apart, Unnamed;
    var t := Next(s, Save(p, key, covered, cached));
    FreshUnnamed(s, key);
    forall q | q in t.procs ensures OwnKeys(t, t.procs[q]) { SaveOwn(s, t, p, q, key); }
    SaveApart(s, t, p, key);
  }

  lemma SaveOwn(s: State, t: State, p: Proc, q: Proc, key: Key)
    requires KeysOk(s) && p in s.procs && q in s.procs && p in t.procs && t.procs == s.procs[p := t.procs[p]]
    requires key !in s.stored && Unnamed(s, key) && key in t.stored && t.stored == s.stored[key := t.stored[key]]
    requires t.history == s.history && t.deleted == s.deleted
    requires t.procs[p].phase.Saved? && t.procs[p].phase.key == key && t.procs[p].drop == s.procs[p].drop
    ensures OwnKeys(t, t.procs[q])
  {
    hide Unnamed, NamedThere, Apart;
    assert OwnKeys(s, s.procs[q]);
    UnnamedSame(s, t);
  }

  /** A fresh object is nobody's. */
  lemma SaveApart(s: State, t: State, p: Proc, key: Key)
    requires KeysOk(s) && p in s.procs && p in t.procs && t.procs == s.procs[p := t.procs[p]] && key !in s.stored
    requires t.procs[p].phase.Saved? && t.procs[p].phase.key == key && t.procs[p].drop == s.procs[p].drop
    ensures forall q, r :: q in t.procs && r in t.procs && q != r ==> Apart(t.procs[q], t.procs[r])
    ensures forall q :: q in t.procs ==> forall k :: k in t.procs[q].drop ==> !Unpublished(t.procs[q], k)
  {
    hide Unnamed, NamedThere;
    forall q | q in s.procs ensures KeyOf(s.procs[q]) != Some(key) && key !in s.procs[q].drop { assert OwnKeys(s, s.procs[q]); }
    forall q, r | q in t.procs && r in t.procs && q != r ensures Apart(t.procs[q], t.procs[r]) {
      assert Apart(s.procs[q], s.procs[r]);
    }
  }

  lemma FreshUnnamed(s: State, key: Key)
    requires KeysOk(s) && key !in s.stored
    ensures Unnamed(s, key)
  {}

  /** A publication that lands names an object nobody else holds or drops. */
  lemma LandKeys(s: State, p: Proc)
    requires KeysOk(s) && p in s.procs && s.procs[p].phase.Saved?
    ensures var t := Landed(s, s.procs[p].phase);
            && NamedThere(t)
            && (forall q :: q in s.procs && q != p ==> OwnKeys(t, s.procs[q]))
            && (forall k :: k in s.procs[p].drop ==> k in t.stored && Last(t).names != Some(k))
  {
    var t := Landed(s, s.procs[p].phase);
    SavedUnnamed(s, p);
    forall q | q in s.procs && q != p ensures OwnKeys(t, s.procs[q]) {
      assert OwnKeys(s, s.procs[q]) && Apart(s.procs[q], s.procs[p]);
    }
    assert OwnKeys(s, s.procs[p]);
  }

  lemma PublishKeys(s: State, p: Proc, answered: bool)
    requires KeysOk(s) && Enabled(s, Publish(p, answered))
    ensures KeysOk(Next(s, Publish(p, answered)))
  {
    hide FoldedInto, NamedThere, Unnamed;
    var t, x := Next(s, Publish(p, answered)), s.procs[p];
    LandKeys(s, p);
    SavedUnnamed(s, p);
    assert NamedThere(t) by { NamedSame(Landed(s, x.phase), t); }
    UnnamedSame(Landed(s, x.phase), t);
    forall q | q in t.procs && q != p ensures OwnKeys(t, t.procs[q]) { assert OwnKeys(Landed(s, x.phase), s.procs[q]); }
    assert OwnKeys(t, t.procs[p]);
    PublishApart(s, t, p);
  }

  lemma PublishApart(s: State, t: State, p: Proc)
    requires KeysOk(s) && p in s.procs && p in t.procs && t.procs == s.procs[p := t.procs[p]]
    requires s.procs[p].phase.Saved? && s.procs[p].phase.gen < |s.history| && !t.procs[p].phase.Saved?
    requires t.procs[p].drop <= s.procs[p].drop + OldObject(s, s.procs[p].phase.gen)
    requires t.procs[p].phase.Lost? ==> KeyOf(t.procs[p]) == KeyOf(s.procs[p])
    ensures forall q, r :: q in t.procs && r in t.procs && q != r ==> Apart(t.procs[q], t.procs[r])
    ensures forall q :: q in t.procs ==> forall k :: k in t.procs[q].drop ==> !Unpublished(t.procs[q], k)
  {
    hide OwnKeys, NamedThere;
    forall q, r | q in t.procs && r in t.procs && q != r ensures Apart(t.procs[q], t.procs[r]) {
      assert Apart(s.procs[q], s.procs[r]);
      if r != p && s.procs[r].phase.Saved? { SavedUnnamed(s, r); }
    }
  }

  lemma WorldKeys(s: State, step: Step)
    requires KeysOk(s) && Enabled(s, step) && (step.Write? || step.Fence? || step.Rebuild?)
    ensures KeysOk(Next(s, step))
  {
    hide EtagsUnique, EntriesOk, Good;
    var t := Next(s, step);
    forall q | q in t.procs ensures OwnKeys(t, t.procs[q]) { assert OwnKeys(s, s.procs[q]); }
    ApartSame(s, t);
  }

  lemma StepKeys(s: State, step: Step)
    requires KeysOk(s) && Enabled(s, step)
    ensures KeysOk(Next(s, step))
  {
    hide KeysOk, Enabled, Next;
    match step
    case Write(_) => WorldKeys(s, step);
    case Fence => WorldKeys(s, step);
    case Rebuild(_, _, _, _) => WorldKeys(s, step);
    case Save(p, key, covered, cached) => SaveKeys(s, p, key, covered, cached);
    case Publish(p, answered) => PublishKeys(s, p, answered);
    case Refuse(p, retry) => RefuseKeys(s, p, retry);
    case Reconcile(p, read) => ReconcileKeys(s, p, read);
    case Enqueue(_, _, _) => CacheKeys(s, step);
    case EnqueueGone(_, _, _) => CacheKeys(s, step);
    case Evict(_) => CacheKeys(s, step);
    case Warm(_, _) => CacheKeys(s, step);
    case Delete(p, k) => DeleteKeys(s, p, k);
    case _ => PlainKeys(s, step);
  }

  // ---- Whole runs ----

  /** A run: the states, and the step from each to the next. */
  ghost predicate Run(ss: seq<State>, steps: seq<Step>) {
    && |ss| == |steps| + 1 && IsInit(ss[0])
    && forall i :: 0 <= i < |steps| ==> Enabled(ss[i], steps[i]) && ss[i + 1] == Next(ss[i], steps[i])
  }

  lemma InitOk(s: State)
    requires IsInit(s)
    ensures Sound(s) && KeysOk(s)
  {
    assert RecordOk(s, START);
  }

  lemma {:induction false} RunSound(ss: seq<State>, steps: seq<Step>, i: nat)
    requires Run(ss, steps) && i < |ss|
    ensures Sound(ss[i]) && KeysOk(ss[i])
  {
    hide Sound, KeysOk, Enabled, Next, IsInit;
    if i == 0 {
      InitOk(ss[0]);
    } else {
      RunSound(ss, steps, i - 1);
      StepSound(ss[i - 1], steps[i - 1]);
      StepKeys(ss[i - 1], steps[i - 1]);
    }
  }

  lemma NextSpoiled(s: State, step: Step)
    requires Enabled(s, step)
    ensures Next(s, step).spoiled == (s.spoiled || Spoils(s, step))
  {
    hide Spoils, EtagsUnique, EntriesOk, Good, IsBatch, SnapshotOk, IsCovered, Exists, Merged, Started, Answered, Added;
    if !step.MergeNext? { OnlyMergesSpoil(s, step); }
  }

  lemma OnlyMergesSpoil(s: State, step: Step)
    requires !step.MergeNext?
    ensures !Spoils(s, step)
  {}

  /** A run is spoiled just when one of its steps spoiled it. */
  lemma {:induction false} SpoiledBySteps(ss: seq<State>, steps: seq<Step>, i: nat)
    requires Run(ss, steps) && i < |ss|
    ensures ss[i].spoiled <==> exists k :: 0 <= k < i && Spoils(ss[k], steps[k])
  {
    hide Enabled, Next, Spoils;
    if i > 0 {
      SpoiledBySteps(ss, steps, i - 1);
      NextSpoiled(ss[i - 1], steps[i - 1]);
    }
  }

  /**
   Whatever the interleaving, whenever the record names an index published as complete,
   every chat whose latest write is at or below the covered revision is in it exactly as
   that write left it, or absent if that write deleted it; unless a removal without a
   revision dropped, from an index published as complete, a chat made again since it was
   found gone.
   */
  lemma CompleteIsExact(ss: seq<State>, steps: seq<Step>, i: nat, id: Id)
    requires Run(ss, steps) && i < |ss| && |ss[i].history| > 0
    requires forall k :: 0 <= k < i ==> !Spoils(ss[k], steps[k])
    requires Last(ss[i]).claimed && 0 < Latest(ss[i].log, id) <= Last(ss[i]).covered
    ensures Last(ss[i]).names.Some? && Last(ss[i]).names.value in ss[i].stored
    ensures var ix, l := ss[i].stored[Last(ss[i]).names.value], Latest(ss[i].log, id);
            if ss[i].log[l - 1].removed then id !in ix
            else id in ix && ix[id].etag == ss[i].log[l - 1].etag
  {
    hide Procs, Objects, EtagsUnique, KeysOk, Enabled, Next, Spoils;
    RunSound(ss, steps, i);
    SpoiledBySteps(ss, steps, i);
    assert RecordOk(ss[i], Last(ss[i]));
  }

  /** The moment apply publishes as complete, the index it publishes is exact through what it claims. */
  lemma PublishedIsExact(ss: seq<State>, steps: seq<Step>, i: nat)
    requires Run(ss, steps) && i < |steps| && steps[i].Publish?
    requires forall k :: 0 <= k < i ==> !Spoils(ss[k], steps[k])
    requires steps[i].p in ss[i].procs && ss[i].procs[steps[i].p].phase.Saved? && !ss[i].procs[steps[i].p].phase.incomplete
    ensures var f := ss[i].procs[steps[i].p].phase;
            && f.key in ss[i].stored && Good(ss[i].log, ss[i].stored[f.key], f.covered)
            && Last(ss[i + 1]).names == Some(f.key) && Last(ss[i + 1]).covered == f.covered
            && Last(ss[i]).covered <= f.covered <= |ss[i].log|
  {
    hide Records, Objects, EtagsUnique, KeysOk, Good, Spoils;
    RunSound(ss, steps, i);
    SpoiledBySteps(ss, steps, i);
    assert ProcOk(ss[i], ss[i].procs[steps[i].p]);
  }

  /** Until a run is spoiled, an update merged into a complete index leaves it exact just when the step does not spoil. */
  lemma SpoilsIsInexact(ss: seq<State>, steps: seq<Step>, i: nat)
    requires Run(ss, steps) && i < |steps| && steps[i].MergeNext? && steps[i].p in ss[i].procs && IsWhole(ss[i], ss[i].procs[steps[i].p].phase)
    requires forall k :: 0 <= k < i ==> !Spoils(ss[k], steps[k])
    ensures steps[i].p in ss[i + 1].procs && ss[i + 1].procs[steps[i].p].phase.Merging?
    ensures var f := ss[i].procs[steps[i].p].phase;
            Good(ss[i].log, ss[i + 1].procs[steps[i].p].phase.w.ix, ss[i].history[f.gen].covered) <==> !Spoils(ss[i], steps[i])
  {
    hide EtagsUnique, KeysOk, Good, BatchOk, Objects, RecordOk, EntriesOk, SnapshotOk, Latest, PendingOk;
    RunSound(ss, steps, i);
    RunSound(ss, steps, i + 1);
    SpoiledBySteps(ss, steps, i);
    NextSpoiled(ss[i], steps[i]);
    var s, t, p := ss[i], ss[i + 1], steps[i].p;
    assert ProcOk(s, s.procs[p]) && ProcOk(t, t.procs[p]);
    var f := s.procs[p].phase;
    if Spoils(s, steps[i]) {
      UnnumberedKeeps(s.log, f.us[f.i], f.w.ix, f.load.LoadOk?, FoundRemade(f, f.us[f.i].id), s.history[f.gen].covered);
    }
  }

  /**
   The first step to spoil a run needs a chat found gone and made again before the
   publication was read: one still gone then is never dropped wrongly.
   */
  lemma SpoilNeedsRemake(ss: seq<State>, steps: seq<Step>, i: nat)
    requires Run(ss, steps) && i < |steps| && Spoils(ss[i], steps[i])
    requires forall k :: 0 <= k < i ==> !Spoils(ss[k], steps[k])
    ensures var f := ss[i].procs[steps[i].p].phase;
            var u := f.us[f.i];
            && u.removed && u.revision <= 0 && !FoundRemade(f, u.id)
            && 0 <= f.source <= |ss[i].log| && Exists(ss[i].log[..f.source], u.id)
  {
    hide EtagsUnique, KeysOk, Enabled, Next, Exists, Good, BatchOk, Objects;
    RunSound(ss, steps, i);
    SpoiledBySteps(ss, steps, i);
    var s := ss[i];
    var f := s.procs[steps[i].p].phase;
    assert ProcOk(s, s.procs[steps[i].p]) && RecordOk(s, s.history[f.gen]);
    if !Exists(s.log[..f.source], f.us[f.i].id) {
      GoneIsHarmless(s.log, f.source, f.us[f.i], f.w.ix, FoundRemade(f, f.us[f.i].id), s.history[f.gen].covered);
    }
  }

  /** No step ever deletes the object the record names. */
  lemma NamedIsKept(ss: seq<State>, steps: seq<Step>, i: nat)
    requires Run(ss, steps) && i < |ss|
    ensures NamedThere(ss[i])
  {
    hide Sound, OwnKeys, Enabled, Next;
    RunSound(ss, steps, i);
  }

  /** An object the record no longer names, and one whose publication was refused, may be deleted by the replica that knows of it. */
  lemma SupersededMayGo(ss: seq<State>, steps: seq<Step>, i: nat, k: Key)
    requires Run(ss, steps) && i < |steps| && |ss[i].history| > 0
    requires || (steps[i].Publish? && steps[i].answered && Last(ss[i]).names == Some(k))
             || (steps[i].Refuse? && steps[i].p in ss[i].procs && ss[i].procs[steps[i].p].phase.Saved? && ss[i].procs[steps[i].p].phase.key == k)
    ensures |ss[i + 1].history| > 0 && Last(ss[i + 1]).names != Some(k)
    ensures Enabled(ss[i + 1], Delete(steps[i].p, k))
  {
    hide Sound, KeysOk, Enabled, Next;
    RunSound(ss, steps, i + 1);
    HandedOver(ss[i], steps[i], k);
    NamedHere(ss[i + 1]);
    DropIsFree(ss[i + 1], steps[i].p, k);
    MayDelete(ss[i + 1], steps[i].p, k);
  }

  lemma HandedOver(s: State, step: Step, k: Key)
    requires Enabled(s, step)
    requires || (step.Publish? && step.answered && Last(s).names == Some(k))
             || (step.Refuse? && step.p in s.procs && s.procs[step.p].phase.Saved? && s.procs[step.p].phase.key == k)
    ensures step.p in Next(s, step).procs && k in Next(s, step).procs[step.p].drop
  {
    hide FoldedInto;
  }

  lemma NamedHere(s: State)
    requires KeysOk(s)
    ensures |s.history| > 0
  {
    hide OwnKeys, Apart;
  }

  lemma MayDelete(s: State, p: Proc, k: Key)
    requires |s.history| > 0 && p in s.procs && k in s.procs[p].drop
    ensures Enabled(s, Delete(p, k))
  {}

  /** A batch merged into an index the record calls complete, and that could be read, is published as complete. */
  lemma CompleteStaysComplete(ss: seq<State>, steps: seq<Step>, i: nat)
    requires Run(ss, steps) && i < |steps| && steps[i].Save?
    ensures var f, t := ss[i].procs[steps[i].p].phase, ss[i + 1];
            && f.gen < |ss[i].history| && t.procs[steps[i].p].phase.Saved?
            && (!ss[i].history[f.gen].incomplete && (ss[i].history[f.gen].names.None? || f.load.LoadOk?) ==> !t.procs[steps[i].p].phase.incomplete)
            && (ss[i].history[f.gen].names.Some? && !f.load.LoadOk? ==> t.procs[steps[i].p].phase.incomplete)
  {
    hide IsCovered;
  }

  /** Outside a merge, a cached index is the stored object its key binds. */
  lemma CacheIsStored(ss: seq<State>, steps: seq<Step>, i: nat, p: Proc)
    requires Run(ss, steps) && i < |ss| && p in ss[i].procs && !ss[i].procs[p].phase.Merging?
    ensures var c := ss[i].procs[p].cache; c.Some? ==> c.value.key in ss[i].stored && c.value.ix == ss[i].stored[c.value.key]
  {
    hide Records, Objects, EtagsUnique, KeysOk, Enabled, Next, PhaseOk, PendingOk;
    RunSound(ss, steps, i);
    assert ProcOk(ss[i], ss[i].procs[p]);
  }

  /** Coverage never goes back but when the caller's key changes. */
  lemma CoverageGrows(ss: seq<State>, steps: seq<Step>, i: nat)
    requires Run(ss, steps) && i < |steps| && !steps[i].Fence?
    ensures |ss[i].history| > 0 && |ss[i + 1].history| > 0 && Last(ss[i]).covered <= Last(ss[i + 1]).covered
  {
    hide Records, Objects, EtagsUnique, KeysOk, EntriesOk, Good, IsBatch, SnapshotOk, IsCovered, Exists, Merged, Started, Answered;
    RunSound(ss, steps, i);
    if steps[i].Publish? { assert ProcOk(ss[i], ss[i].procs[steps[i].p]); }
  }
}
