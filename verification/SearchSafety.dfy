/**
 What every reachable state of the publication protocol keeps.
 */
module SearchSafety {
  import opened Options
  import opened SearchIndex
  import opened SearchCoverage
  import opened SearchWriter
  import opened SearchProtocol

  // ---- The invariant ----

  /** A publication held complete is exact through the revision it covers, unless a removal spoiled one. */
  ghost predicate RecordOk(s: State, rec: Record) {
    && 0 <= rec.covered <= |s.log|
    && (rec.names.None? ==> rec.covered == 0)
    && (rec.names.Some? ==> rec.names.value in s.stored)
    && (rec.names.Some? && rec.claimed && !s.spoiled ==> Good(s.log, s.stored[rec.names.value], rec.covered))
    && (!rec.incomplete ==> rec.claimed)
  }

  ghost predicate PendingOk(log: Log, pending: Pending) {
    Keyed(pending) && forall id :: id in pending ==> UpdateOk(log, pending[id])
  }

  /** Revisions to hand back are of their own chat. */
  ghost predicate BehindOk(log: Log, behind: map<Id, seq<int>>) {
    forall id, v :: id in behind && v in behind[id] ==> IsOf(log, v, id)
  }

  /** The index a batch starts from. */
  function StartIndex(s: State, rec: Record, load: Load): Index {
    if load.LoadOk? && rec.names.Some? && rec.names.value in s.stored then s.stored[rec.names.value] else map[]
  }

  /** Whether the index a batch changes is known to be exact through its publication. */
  predicate IsFine(s: State, gen: nat, load: Load) {
    !s.spoiled && gen < |s.history| && s.history[gen].claimed && Readable(s.history[gen], load)
  }

  ghost predicate PhaseOk(s: State, f: Phase) {
    match f
    case Idle => true
    case Checking(us, _) => BatchOk(s.log, us)
    case Merging(us, _, gen, source, load, i, w, shared) =>
      && BatchOk(s.log, us) && gen < |s.history| && i <= |us|
      && s.history[gen].covered <= source <= |s.log|
      && (load.LoadOk? ==> s.history[gen].names.Some?) && (shared ==> load.LoadOk?)
      && WorkOk(s.log, us, i, w, s.history[gen].covered, IsFine(s, gen, load))
      && (!w.changed ==> w.ix == StartIndex(s, s.history[gen], load))
    case Saved(us, _, gen, covered, incomplete, key, behind) =>
      && BatchOk(s.log, us) && gen < |s.history| && key in s.stored
      && s.history[gen].covered <= covered <= |s.log|
      && (!incomplete && !s.spoiled ==> Good(s.log, s.stored[key], covered))
      && BehindOk(s.log, behind)
    case Lost(gen, key, behind) => gen < |s.history| && key in s.stored && BehindOk(s.log, behind)
  }

  /** The cached index is the object its key binds, or the one being changed. */
  ghost predicate CacheOk(s: State, x: Process) {
    x.cache.Some? ==>
      var c := x.cache.value;
      && (if x.phase.Merging? && x.phase.shared
          then x.phase.gen < |s.history| && s.history[x.phase.gen].names == Some(c.key) && c.ix == x.phase.w.ix
          else c.key in s.stored && c.ix == s.stored[c.key])
      && (c.completeAt > 0 ==> c.completeAt < |s.history| && s.history[c.completeAt].claimed)
  }

  ghost predicate ProcOk(s: State, x: Process) {
    PendingOk(s.log, x.pending) && PhaseOk(s, x.phase) && CacheOk(s, x)
  }

  ghost predicate Records(s: State) {
    |s.history| > 0 && forall g :: 0 <= g < |s.history| ==> RecordOk(s, s.history[g])
  }

  ghost predicate Objects(s: State) { forall k :: k in s.stored ==> EntriesOk(s.log, s.stored[k]) }

  ghost predicate Procs(s: State) { forall p :: p in s.procs ==> ProcOk(s, s.procs[p]) }

  /** What concerns the contents of indexes. */
  ghost predicate Sound(s: State) {
    EtagsUnique(s.log) && Records(s) && Objects(s) && Procs(s)
  }

  // ---- What only grows ----

  /** Publications and objects are never changed, and at most one write is added. */
  ghost predicate Extends(s: State, t: State) {
    && s.history <= t.history
    && (forall k :: k in s.stored ==> k in t.stored && t.stored[k] == s.stored[k])
    && (t.log == s.log || exists w :: t.log == s.log + [w])
    && (s.spoiled ==> t.spoiled)
  }

  lemma RecordLater(s: State, t: State, rec: Record)
    requires RecordOk(s, rec) && Extends(s, t)
    ensures RecordOk(t, rec)
  {
    hide Good;
    if t.log != s.log && rec.names.Some? && rec.claimed && !t.spoiled {
      var w :| t.log == s.log + [w];
      GoodLater(s.log, w, s.stored[rec.names.value], rec.covered);
    }
  }

  lemma PendingLater(s: State, t: State, pending: Pending)
    requires PendingOk(s.log, pending) && Extends(s, t)
    ensures PendingOk(t.log, pending)
  {
    hide UpdateOk, Keyed;
    if t.log != s.log {
      var w :| t.log == s.log + [w];
      forall id | id in pending ensures UpdateOk(t.log, pending[id]) { UpdateLater(s.log, w, pending[id]); }
    }
  }

  lemma BehindLater(s: State, t: State, behind: map<Id, seq<int>>)
    requires BehindOk(s.log, behind) && Extends(s, t)
    ensures BehindOk(t.log, behind)
  {
    forall id, v | id in behind && v in behind[id] ensures IsOf(t.log, v, id) { assert IsOf(s.log, v, id); }
  }

  lemma PhaseLater(s: State, t: State, f: Phase)
    requires Records(s) && PhaseOk(s, f) && Extends(s, t)
    ensures PhaseOk(t, f)
  {
    hide BatchOk, WorkOk, Good, BehindOk;
    if f.Saved? || f.Lost? { BehindLater(s, t, f.behind); }
    if f.Merging? {
      WorkLess(s.log, f.us, f.i, f.w, s.history[f.gen].covered, IsFine(s, f.gen, f.load), IsFine(t, f.gen, f.load));
    }
    if t.log != s.log {
      var w :| t.log == s.log + [w];
      match f
      case Idle =>
      case Checking(us, _) => BatchLater(s.log, w, us);
      case Merging(us, _, gen, _, load, i, work, _) =>
        BatchLater(s.log, w, us);
        WorkLater(s.log, w, us, i, work, s.history[gen].covered, IsFine(t, gen, load));
      case Saved(us, _, _, covered, incomplete, key, _) =>
        BatchLater(s.log, w, us);
        if !incomplete && !t.spoiled { GoodLater(s.log, w, s.stored[key], covered); }
      case Lost(_, _, _) =>
    }
    if f.Merging? { assert RecordOk(s, s.history[f.gen]); }
    MergingStart(s, t, f);
  }

  lemma MergingStart(s: State, t: State, f: Phase)
    requires Extends(s, t) && (f.Merging? ==> f.gen < |s.history|)
    ensures f.Merging? && f.load.LoadOk? && s.history[f.gen].names.Some? && s.history[f.gen].names.value in s.stored ==>
              StartIndex(t, t.history[f.gen], f.load) == StartIndex(s, s.history[f.gen], f.load)
    ensures f.Merging? && !f.load.LoadOk? ==> StartIndex(t, t.history[f.gen], f.load) == map[]
  {}

  lemma ProcLater(s: State, t: State, x: Process)
    requires Records(s) && ProcOk(s, x) && Extends(s, t)
    ensures ProcOk(t, x)
  {
    hide PendingOk, PhaseOk, RecordOk;
    PendingLater(s, t, x.pending);
    PhaseLater(s, t, x.phase);
  }

  /** What a step adds keeps the rest sound. */
  lemma SoundLater(s: State, t: State, p: Proc)
    requires Sound(s) && Extends(s, t) && EtagsUnique(t.log)
    requires forall g :: |s.history| <= g < |t.history| ==> RecordOk(t, t.history[g])
    requires forall k :: k in t.stored && k !in s.stored ==> EntriesOk(t.log, t.stored[k])
    requires forall q :: q in t.procs && q != p ==> q in s.procs && t.procs[q] == s.procs[q]
    requires p in t.procs ==> ProcOk(t, t.procs[p])
    ensures Sound(t)
  {
    hide EtagsUnique, RecordOk, EntriesOk, ProcOk;
    forall g | 0 <= g < |t.history| ensures RecordOk(t, t.history[g]) {
      if g < |s.history| { RecordLater(s, t, s.history[g]); }
    }
    forall k | k in t.stored ensures EntriesOk(t.log, t.stored[k]) {
      if k in s.stored && t.log != s.log {
        var w :| t.log == s.log + [w];
        EntriesLater(s.log, w, s.stored[k]);
      }
    }
    forall q | q in t.procs && q != p ensures ProcOk(t, t.procs[q]) { ProcLater(s, t, s.procs[q]); }
  }

  // ---- The steps ----

  lemma WorldStep(s: State, step: Step)
    requires Sound(s) && Enabled(s, step) && (step.Write? || step.Fence? || step.Rebuild?)
    ensures Sound(Next(s, step))
  {
    hide Sound, EtagsUnique, EntriesOk, ProcOk, Good;
    var t := Next(s, step);
    SoundParts(s);
    assert Extends(s, t) by { if step.Write? { assert t.log == s.log + [step.w]; } }
    forall q | q in t.procs ensures ProcOk(t, t.procs[q]) { ProcLater(s, t, s.procs[q]); }
    SoundLater(s, t, 0);
  }

  lemma SoundParts(s: State)
    requires Sound(s)
    ensures EtagsUnique(s.log) && Records(s) && Objects(s) && Procs(s)
  {}

  /** A step of one replica that writes nothing others read. */
  lemma OwnStep(s: State, t: State, p: Proc, x: Process)
    requires Sound(s) && p in s.procs && ProcOk(s, x)
    requires t == SetProc(s, p, x).(enqueued := t.enqueued, deleted := t.deleted)
    ensures Sound(t)
  {
    hide EtagsUnique, RecordOk, EntriesOk, ProcOk, Objects;
    assert Extends(s, t);
    ProcLater(s, t, x);
    SoundLater(s, t, p);
  }

  lemma EnqueueStep(s: State, p: Proc, v: int, at: int)
    requires Sound(s) && Enabled(s, Enqueue(p, v, at))
    ensures Sound(Next(s, Enqueue(p, v, at)))
  {
    hide EtagsUnique, Records, Objects, PhaseOk;
    var x := s.procs[p];
    assert ProcOk(s, x);
    AddedOk(s.log, x.pending, UpdateOf(s.log, v, at));
    OwnStep(s, Next(s, Enqueue(p, v, at)), p, x.(pending := Added(x.pending, UpdateOf(s.log, v, at))));
  }

  lemma EnqueueGoneStep(s: State, p: Proc, id: Id, at: int)
    requires Sound(s) && Enabled(s, EnqueueGone(p, id, at))
    ensures Sound(Next(s, EnqueueGone(p, id, at)))
  {
    hide EtagsUnique, Records, Objects, PhaseOk;
    var x := s.procs[p];
    assert ProcOk(s, x);
    AddedOk(s.log, x.pending, GoneUpdate(id, at));
    OwnStep(s, Next(s, EnqueueGone(p, id, at)), p, x.(pending := Added(x.pending, GoneUpdate(id, at))));
  }

  lemma TakeUpStep(s: State, p: Proc, us: seq<Update>)
    requires Sound(s) && Enabled(s, TakeUp(p, us))
    ensures Sound(Next(s, TakeUp(p, us)))
  {
    hide EtagsUnique, Records, Objects, BatchOk, IsBatch, UpdateOk;
    var x := s.procs[p];
    assert ProcOk(s, x);
    BatchIsOk(s.log, x.pending, us);
    OwnStep(s, Next(s, TakeUp(p, us)), p, x.(pending := map[], phase := Checking(us, map[])));
  }

  lemma ReadStep(s: State, p: Proc, load: Load, cached: bool)
    requires Sound(s) && Enabled(s, Read(p, load, cached))
    ensures Sound(Next(s, Read(p, load, cached)))
  {
    hide EtagsUnique, RecordOk, Objects, PendingOk, BatchOk, EntriesOk, WorkOk, Good;
    var x := s.procs[p];
    assert ProcOk(s, x);
    ReadWork(s, x, load, cached);
    OwnStep(s, Next(s, Read(p, load, cached)), p, Started(s, x, load, cached));
  }

  lemma ReadWork(s: State, x: Process, load: Load, cached: bool)
    requires Records(s) && Objects(s) && x.phase.Checking? && ProcOk(s, x)
    requires load.LoadOk? ==> Last(s).names.Some? && Last(s).names.value in s.stored
    requires Last(s).names.None? ==> load.LoadMissing?
    ensures ProcOk(s, Started(s, x, load, cached))
  {
    hide PendingOk, BatchOk, EntriesOk, Good;
    assert RecordOk(s, Last(s));
    var f := Started(s, x, load, cached).phase;
    assert EntriesOk(s.log, f.w.ix) by { if !load.LoadOk? { EmptyOk(s.log); } }
    if Last(s).names.None? { NothingGood(s.log, f.w.ix); }
  }

  lemma EmptyOk(log: Log)
    ensures EntriesOk(log, map[])
  {}

  lemma NothingGood(log: Log, ix: Index)
    ensures Good(log, ix, 0)
  {}

  lemma MergeStep(s: State, p: Proc, snapshot: Snapshot, fits: bool)
    requires Sound(s) && Enabled(s, MergeNext(p, snapshot, fits))
    ensures Sound(Next(s, MergeNext(p, snapshot, fits)))
  {
    hide EtagsUnique, RecordOk, Objects, PendingOk, BatchOk, EntriesOk, WorkOk, Good, MergeOne, SnapshotOk, PhaseOk, Harmless;
    var t := Next(s, MergeNext(p, snapshot, fits));
    var s' := s.(spoiled := t.spoiled);
    assert Extends(s, s');
    SoundSpoiled(s, s');
    var x := s'.procs[p];
    var f := x.phase;
    assert ProcOk(s', x);
    var a := Answer(snapshot, fits, FoundRemade(f, f.us[f.i].id));
    MergePhase(s', f, a);
    OwnStep(s', t, p, Merged(x, a));
  }

  /** What is said of a run without spoiling removals is no longer said. */
  lemma SoundSpoiled(s: State, t: State)
    requires Sound(s) && t == s.(spoiled := t.spoiled) && (s.spoiled ==> t.spoiled)
    ensures Sound(t)
  {
    hide EtagsUnique, RecordOk, EntriesOk, ProcOk;
    if 0 in s.procs { ProcLater(s, t, s.procs[0]); }
    SoundLater(s, t, 0);
  }

  lemma MergePhase(s: State, f: Phase, a: Answer)
    requires Sound(s) && f.Merging? && PhaseOk(s, f) && f.i < |f.us|
    requires !f.us[f.i].removed ==> SnapshotOk(s.log, f.us[f.i].id, f.us[f.i].etag, a.snapshot)
    requires IsFine(s, f.gen, f.load) ==> Harmless(s.log, f.us[f.i], f.w.ix, a.remade, s.history[f.gen].covered)
    ensures PhaseOk(s, f.(i := f.i + 1, w := MergeOne(f.w, f.us[f.i], f.load.LoadOk?, f.source, InHand(f.us), a)))
  {
    hide EtagsUnique, Records, Objects, Procs, BatchOk, WorkOk, MergeOne, SnapshotOk, Harmless;
    var rec := s.history[f.gen];
    MergeKeeps(s.log, f.us, f.i, f.w, f.load.LoadOk?, f.source, a, rec.covered, IsFine(s, f.gen, f.load));
    MergeUnchanged(f.w, f.us[f.i], f.load.LoadOk?, f.source, InHand(f.us), a);
  }

  /** An index reported unchanged is unchanged. */
  lemma MergeUnchanged(w: Work, u: Update, whole: bool, source: int, inHand: set<int>, a: Answer)
    ensures var w' := MergeOne(w, u, whole, source, inHand, a); !w'.changed ==> !w.changed && w'.ix == w.ix
  {}

  lemma QuitStep(s: State, p: Proc)
    requires Sound(s) && Enabled(s, Quit(p))
    ensures Sound(Next(s, Quit(p)))
  {
    hide EtagsUnique, Objects, BatchOk, EntriesOk, Good, PendingOk, BehindOk, WorkOk;
    var x := s.procs[p];
    var f := x.phase;
    assert ProcOk(s, x) && RecordOk(s, s.history[f.gen]);
    WorkBehind(s.log, f.us, f.w, s.history[f.gen].covered, IsFine(s, f.gen, f.load));
    FoldedPending(s.log, x.pending, f.w.behind);
    OwnStep(s, Next(s, Quit(p)), p, x.(pending := FoldedInto(x.pending, f.w.behind), phase := Idle));
  }

  lemma FoldedPending(log: Log, pending: Pending, behind: map<Id, seq<int>>)
    requires PendingOk(log, pending) && BehindOk(log, behind)
    ensures PendingOk(log, FoldedInto(pending, behind))
  {
    FoldedOk(log, pending, behind);
  }

  lemma WorkBehind(log: Log, us: seq<Update>, w: Work, p: int, fine: bool)
    requires BatchOk(log, us) && WorkOk(log, us, |us|, w, p, fine)
    ensures BehindOk(log, w.behind)
  {
    hide Good, EntriesOk, Exact, Revisions, BatchOk;
    forall id, v | id in w.behind && v in w.behind[id] ensures IsOf(log, v, id) {
      var j :| 0 <= j < |us| && us[j].id == id && w.behind[id] == Revisions(us[j]);
      BatchHas(log, us, j);
      RevisionsOk(log, us[j], v);
    }
  }

  lemma SaveStep(s: State, p: Proc, key: Key, covered: int, cached: bool)
    requires Sound(s) && Enabled(s, Save(p, key, covered, cached))
    ensures Sound(Next(s, Save(p, key, covered, cached)))
  {
    hide EtagsUnique, Records, Objects, PendingOk, BatchOk, EntriesOk, WorkOk, Good, BehindOk, IsCovered, Readable, CompleteThrough;
    var t := Next(s, Save(p, key, covered, cached));
    var x := s.procs[p];
    assert ProcOk(s, x);
    assert Extends(s, t);
    SaveWork(s, x, covered);
    PendingLater(s, t, x.pending);
    SoundLater(s, t, p);
  }

  lemma SaveWork(s: State, x: Process, covered: int)
    requires Sound(s) && ProcOk(s, x) && x.phase.Merging? && x.phase.i == |x.phase.us|
    requires IsCovered(s.history[x.phase.gen].covered, x.phase.w.took, covered)
    ensures var f := x.phase;
            && s.history[f.gen].covered <= covered <= |s.log| && EntriesOk(s.log, f.w.ix) && BehindOk(s.log, f.w.behind)
            && (Readable(s.history[f.gen], f.load) && CompleteThrough(s, x, f.gen) && !s.spoiled ==> Good(s.log, f.w.ix, covered))
  {
    hide EtagsUnique, Objects, Procs, PendingOk, BatchOk, WorkOk, Good, EntriesOk, BehindOk, IsCovered;
    var f, rec := x.phase, s.history[x.phase.gen];
    var fine := IsFine(s, f.gen, f.load);
    assert RecordOk(s, rec);
    WorkBehind(s.log, f.us, f.w, rec.covered, fine);
    WorkEntries(s.log, f.us, f.i, f.w, rec.covered, fine);
    CoveredBounds(s.log, f.us, f.w, rec.covered, fine, covered);
    if Readable(rec, f.load) && CompleteThrough(s, x, f.gen) && !s.spoiled {
      assert fine;
      CoveredIsGood(s.log, f.us, f.w, rec.covered, covered);
    }
  }

  lemma CoveredBounds(log: Log, us: seq<Update>, w: Work, p: int, fine: bool, covered: int)
    requires BatchOk(log, us) && WorkOk(log, us, |us|, w, p, fine) && p <= |log| && IsCovered(p, w.took, covered)
    ensures p <= covered <= |log|
  {
    hide Good, EntriesOk, Exact, Revisions, BatchOk;
    if covered > p {
      assert covered in w.took;
      var j :| 0 <= j < |us| && covered in Revisions(us[j]);
      BatchHas(log, us, j);
      RevisionsOk(log, us[j], covered);
    }
  }

  lemma PublishStep(s: State, p: Proc, answered: bool)
    requires Sound(s) && Enabled(s, Publish(p, answered))
    ensures Sound(Next(s, Publish(p, answered)))
  {
    hide EtagsUnique, Records, Objects, PendingOk, BatchOk, EntriesOk, Good, BehindOk;
    var t := Next(s, Publish(p, answered));
    var x := s.procs[p];
    assert ProcOk(s, x);
    assert Extends(s, t);
    assert RecordOk(t, Last(t)) by { assert RecordOk(s, s.history[x.phase.gen]) by { RecordsAt(s, x.phase.gen); } }
    FoldedPending(s.log, x.pending, x.phase.behind);
    SoundLater(s, t, p);
  }

  lemma RecordsAt(s: State, g: nat)
    requires Records(s) && g < |s.history|
    ensures RecordOk(s, s.history[g])
  {}

  lemma ReconcileStep(s: State, p: Proc, read: bool)
    requires Sound(s) && Enabled(s, Reconcile(p, read))
    ensures Sound(Next(s, Reconcile(p, read)))
  {
    hide EtagsUnique, Records, Objects, PendingOk, BehindOk;
    var x := s.procs[p];
    assert ProcOk(s, x);
    FoldedPending(s.log, x.pending, x.phase.behind);
    OwnStep(s, Next(s, Reconcile(p, read)), p, Next(s, Reconcile(p, read)).procs[p]);
  }

  /** Steps that only leave a phase, or touch the cache or the objects to drop. */
  lemma PlainStep(s: State, step: Step)
    requires Sound(s) && Enabled(s, step)
    requires || step.Check? || step.GiveUp? || step.FailSave? || step.Refuse? || step.Lose? || step.Evict? || step.Warm? || step.Delete?
    ensures Sound(Next(s, step))
  {
    hide EtagsUnique, Records, Objects, PendingOk, BehindOk, BatchOk, WorkOk, Good, Exists;
    var x := s.procs[step.p];
    assert ProcOk(s, x);
    OwnStep(s, Next(s, step), step.p, Next(s, step).procs[step.p]);
  }

  lemma StepSound(s: State, step: Step)
    requires Sound(s) && Enabled(s, step)
    ensures Sound(Next(s, step))
  {
    hide Sound, Enabled, Next;
    match step
    case Write(_) => WorldStep(s, step);
    case Fence => WorldStep(s, step);
    case Rebuild(_, _, _, _) => WorldStep(s, step);
    case Enqueue(p, v, at) => EnqueueStep(s, p, v, at);
    case EnqueueGone(p, id, at) => EnqueueGoneStep(s, p, id, at);
    case TakeUp(p, us) => TakeUpStep(s, p, us);
    case Read(p, load, cached) => ReadStep(s, p, load, cached);
    case MergeNext(p, snapshot, fits) => MergeStep(s, p, snapshot, fits);
    case Quit(p) => QuitStep(s, p);
    case Save(p, key, covered, cached) => SaveStep(s, p, key, covered, cached);
    case Publish(p, answered) => PublishStep(s, p, answered);
    case Reconcile(p, read) => ReconcileStep(s, p, read);
    case _ => PlainStep(s, step);
  }
}
