/**
 Replicas that publish one caller's index (internal/search/stored.go, index.go, cache.go):
 each merges batches of updates into the published index and names the result in the
 control plane's record by compare-and-swap on its generation. Every read, save and
 publication is a step of its own, and the steps of replicas, writes of chats, rebuilds
 and changes of the caller's key interleave in any order.
 */
module SearchProtocol {
  import opened Options
  import opened SearchIndex
  import opened SearchCoverage
  import opened SearchWriter

  type Proc = nat
  type Key = nat  // the name of an index object

  /** A publication; claimed is whether its publisher held it complete, which the control plane does not keep. */
  datatype Record = Record(covered: int, names: Option<Key>, incomplete: bool, claimed: bool, fence: nat)

  datatype Load = LoadOk | LoadMissing | LoadUnreadable

  /** How far a replica's apply has come. */
  datatype Phase =
    | Idle
    | Checking(us: seq<Update>, remade: map<Id, bool>)
    | Merging(us: seq<Update>, remade: map<Id, bool>, gen: nat, source: int, load: Load, i: nat, w: Work, shared: bool)
    | Saved(us: seq<Update>, remade: map<Id, bool>, gen: nat, covered: int, incomplete: bool, key: Key, behind: map<Id, seq<int>>)
    | Lost(gen: nat, key: Key, behind: map<Id, seq<int>>)

  /** The cached index; while a batch is merged into it, it is the index being changed. */
  datatype Cached = Cached(key: Key, ix: Index, completeAt: nat)

  datatype Process = Process(pending: Pending, phase: Phase, cache: Option<Cached>, drop: set<Key>)

  /** The publication of generation g is history[g], and the record is the last. */
  datatype State = State(
    log: Log,
    enqueued: set<int>,
    history: seq<Record>,
    stored: map<Key, Index>,   // every object ever saved
    deleted: set<Key>,
    procs: map<Proc, Process>,
    spoiled: bool)             // an unnumbered removal has dropped a chat a complete index was exact about

  const START := Record(0, None, false, true, 0)

  const FRESH := Process(map[], Idle, None, {})

  predicate IsInit(s: State) {
    && s.log == [] && s.enqueued == {} && s.history == [START] && s.stored == map[] && s.deleted == {} && !s.spoiled
    && forall p :: p in s.procs ==> s.procs[p] == FRESH
  }

  function Last(s: State): Record
    requires |s.history| > 0
  {
    s.history[|s.history| - 1]
  }

  datatype Step =
    | Write(w: SearchCoverage.Write)
    | Fence
    | Rebuild(key: Key, ix: Index, covered: int, incomplete: bool)
    | Enqueue(p: Proc, v: int, at: int)
    | EnqueueGone(p: Proc, id: Id, at: int)
    | TakeUp(p: Proc, us: seq<Update>)
    | Check(p: Proc, id: Id, remade: bool)
    | Read(p: Proc, load: Load, cached: bool)
    | MergeNext(p: Proc, snapshot: Snapshot, fits: bool)
    | Quit(p: Proc)
    | GiveUp(p: Proc)
    | Save(p: Proc, key: Key, covered: int, cached: bool)
    | FailSave(p: Proc)
    | Publish(p: Proc, answered: bool)
    | Refuse(p: Proc, retry: bool)
    | Lose(p: Proc)
    | Reconcile(p: Proc, read: bool)
    | Evict(p: Proc)
    | Warm(p: Proc, key: Key)
    | Delete(p: Proc, key: Key)

  function UpdateOf(log: Log, v: int, at: int): Update
    requires 0 < v <= |log|
  {
    Update(log[v - 1].id, log[v - 1].removed, log[v - 1].etag, at, v, [])
  }

  /** The removal of a chat whose row was already gone when it was read. */
  function GoneUpdate(id: Id, at: int): Update { Update(id, true, ETag(0, None), at, 0, []) }

  /** Whether a chat was found made again before the batch. */
  predicate FoundRemade(f: Phase, id: Id)
    requires f.Merging?
  {
    id in f.remade && f.remade[id]
  }

  /** The index a batch changes was published as complete. */
  predicate IsWhole(s: State, f: Phase) {
    f.Merging? && f.gen < |s.history| && s.history[f.gen].claimed && Readable(s.history[f.gen], f.load)
  }

  /** The step drops from a complete index a chat that was made again since it was found gone. */
  ghost predicate Spoils(s: State, step: Step) {
    && step.MergeNext? && step.p in s.procs
    && var f := s.procs[step.p].phase;
       && IsWhole(s, f) && f.i < |f.us|
       && !Harmless(s.log, f.us[f.i], f.w.ix, FoundRemade(f, f.us[f.i].id), s.history[f.gen].covered)
  }

  /** The record calls the batch's starting index complete, or this process knows it published it as such. */
  predicate CompleteThrough(s: State, x: Process, gen: nat)
    requires gen < |s.history|
  {
    || !s.history[gen].incomplete
    || (gen > 0 && x.cache.Some? && s.history[gen].names == Some(x.cache.value.key) && x.cache.value.completeAt == gen)
  }

  predicate Readable(rec: Record, load: Load) { rec.names.None? || load.LoadOk? }

  /** The cache after a load: the loaded index is kept unless it is too large. */
  function CacheLoaded(cache: Option<Cached>, key: Key, ix: Index, kept: bool): Option<Cached> {
    if !kept then None
    else if cache.Some? && cache.value.key == key then cache
    else Some(Cached(key, ix, 0))
  }

  ghost predicate Enabled(s: State, step: Step) {
    && |s.history| > 0
    && match step
       case Write(w) => EtagsUnique(s.log + [w])
       case Fence => true
       case Rebuild(key, ix, covered, incomplete) =>
         && key !in s.stored && Last(s).covered <= covered <= |s.log| && EntriesOk(s.log, ix)
         && (!incomplete ==> Good(s.log, ix, covered))
       case Enqueue(p, v, _) => p in s.procs && 0 < v <= |s.log| && v !in s.enqueued
       case EnqueueGone(p, _, _) => p in s.procs
       case TakeUp(p, us) => p in s.procs && s.procs[p].phase.Idle? && |us| > 0 && IsBatch(s.procs[p].pending, us)
       case Check(p, id, remade) => p in s.procs && s.procs[p].phase.Checking? && (remade || !Exists(s.log, id))
       case Read(p, load, _) =>
         && p in s.procs && s.procs[p].phase.Checking?
         && (forall u :: u in s.procs[p].phase.us && u.removed ==> u.id in s.procs[p].phase.remade)
         && (load.LoadOk? ==> Last(s).names.Some? && Last(s).names.value in s.stored)
         && (Last(s).names.None? ==> load.LoadMissing?)
       case MergeNext(p, snapshot, _) =>
         && p in s.procs && s.procs[p].phase.Merging?
         && var x := s.procs[p].phase;
            x.i < |x.us| && (!x.us[x.i].removed ==> SnapshotOk(s.log, x.us[x.i].id, x.us[x.i].etag, snapshot))
       case Quit(p) =>
         && p in s.procs && s.procs[p].phase.Merging?
         && var x := s.procs[p].phase;
            x.i == |x.us| && x.gen < |s.history| && !x.w.changed && IsCovered(s.history[x.gen].covered, x.w.took, s.history[x.gen].covered)
       case GiveUp(p) => p in s.procs && s.procs[p].phase.Checking?
       case Save(p, key, covered, _) =>
         && p in s.procs && s.procs[p].phase.Merging? && key !in s.stored
         && var x := s.procs[p].phase;
            && x.i == |x.us| && x.gen < |s.history| && IsCovered(s.history[x.gen].covered, x.w.took, covered)
            && (x.w.changed || covered != s.history[x.gen].covered)
       case FailSave(p) =>
         && p in s.procs && s.procs[p].phase.Merging?
         && s.procs[p].phase.i == |s.procs[p].phase.us|
       case Publish(p, _) =>
         && p in s.procs && s.procs[p].phase.Saved?
         && s.procs[p].phase.gen == |s.history| - 1
       case Refuse(p, _) => p in s.procs && s.procs[p].phase.Saved?
       case Lose(p) => p in s.procs && s.procs[p].phase.Saved?
       case Reconcile(p, _) => p in s.procs && s.procs[p].phase.Lost? && s.procs[p].phase.gen < |s.history|
       case Evict(p) => p in s.procs
       case Warm(p, key) => p in s.procs && !s.procs[p].phase.Merging? && key in s.stored
       case Delete(p, key) => p in s.procs && key in s.procs[p].drop
  }

  function SetProc(s: State, p: Proc, x: Process): State { s.(procs := s.procs[p := x]) }

  function OldObject(s: State, gen: nat): set<Key>
    requires gen < |s.history|
  {
    if s.history[gen].names.Some? then {s.history[gen].names.value} else {}
  }

  /** A batch takes its next update into the index, which the cache shares. */
  function Merged(x: Process, a: Answer): Process
    requires x.phase.Merging? && x.phase.i < |x.phase.us|
  {
    var f := x.phase;
    var w := MergeOne(f.w, f.us[f.i], f.load.LoadOk?, f.source, InHand(f.us), a);
    x.(phase := f.(i := f.i + 1, w := w),
       cache := if f.shared && x.cache.Some? then Some(x.cache.value.(ix := w.ix)) else x.cache)
  }

  /** Reads the record and loads the index it names, or starts from an empty one. */
  function Started(s: State, x: Process, load: Load, cached: bool): Process
    requires |s.history| > 0 && x.phase.Checking?
    requires load.LoadOk? ==> Last(s).names.Some? && Last(s).names.value in s.stored
  {
    var f, gen := x.phase, |s.history| - 1;
    if load.LoadOk? then
      var key := Last(s).names.value;
      x.(phase := Merging(f.us, f.remade, gen, |s.log|, load, 0, Work(s.stored[key], false, {}, map[]), true),
         cache := CacheLoaded(x.cache, key, s.stored[key], cached))
    else
      x.(phase := Merging(f.us, f.remade, gen, |s.log|, load, 0, Work(map[], false, {}, map[]), false),
         cache := if x.cache.Some? && Last(s).names == Some(x.cache.value.key) then None else x.cache)
  }

  /** The publication lands: the record names the saved object at the next generation. */
  function Landed(s: State, f: Phase): State
    requires |s.history| > 0 && f.Saved?
  {
    s.(history := s.history + [Record(f.covered, Some(f.key), f.incomplete || f.covered < |s.log|, !f.incomplete, Last(s).fence)])
  }

  /** What its publisher makes of a publication that landed and was answered. */
  function Answered(s: State, x: Process): Process
    requires x.phase.Saved? && x.phase.gen < |s.history|
  {
    var f := x.phase;
    Process(FoldedInto(x.pending, f.behind), Idle,
            if !f.incomplete && x.cache.Some? && x.cache.value.key == f.key
            then Some(x.cache.value.(completeAt := |s.history|)) else x.cache,
            x.drop + OldObject(s, f.gen))
  }

  ghost function Next(s: State, step: Step): State
    requires Enabled(s, step)
  {
    match step
    case Write(w) => s.(log := s.log + [w])
    case Fence => s.(history := s.history + [Record(0, None, true, false, Last(s).fence + 1)])
    case Rebuild(key, ix, covered, incomplete) =>
      s.(history := s.history + [Record(covered, Some(key), incomplete || covered < |s.log|, !incomplete, Last(s).fence)],
         stored := s.stored[key := ix], deleted := s.deleted + OldObject(s, |s.history| - 1))
    case Enqueue(p, v, at) =>
      SetProc(s, p, s.procs[p].(pending := Added(s.procs[p].pending, UpdateOf(s.log, v, at)))).(enqueued := s.enqueued + {v})
    case EnqueueGone(p, id, at) => SetProc(s, p, s.procs[p].(pending := Added(s.procs[p].pending, GoneUpdate(id, at))))
    case TakeUp(p, us) => SetProc(s, p, s.procs[p].(pending := map[], phase := Checking(us, map[])))
    case Check(p, id, remade) =>
      var f := s.procs[p].phase;
      SetProc(s, p, s.procs[p].(phase := Checking(f.us, f.remade[id := remade])))
    case Read(p, load, cached) => SetProc(s, p, Started(s, s.procs[p], load, cached))
    case MergeNext(p, snapshot, fits) =>
      var f := s.procs[p].phase;
      SetProc(s, p, Merged(s.procs[p], Answer(snapshot, fits, FoundRemade(f, f.us[f.i].id)))).(spoiled := s.spoiled || Spoils(s, step))
    case Quit(p) =>
      SetProc(s, p, s.procs[p].(pending := FoldedInto(s.procs[p].pending, s.procs[p].phase.w.behind), phase := Idle))
    case GiveUp(p) => SetProc(s, p, s.procs[p].(phase := Idle))
    case Save(p, key, covered, cached) =>
      var x := s.procs[p];
      var f := x.phase;
      var incomplete := !Readable(s.history[f.gen], f.load) || !CompleteThrough(s, x, f.gen);
      SetProc(s, p, x.(phase := Saved(f.us, f.remade, f.gen, covered, incomplete, key, f.w.behind),
                       cache := if cached then Some(Cached(key, f.w.ix, 0)) else None)).(stored := s.stored[key := f.w.ix])
    case FailSave(p) => SetProc(s, p, s.procs[p].(phase := Idle, cache := None))
    case Publish(p, answered) =>
      var x := s.procs[p];
      SetProc(Landed(s, x.phase), p,
              if answered then Answered(s, x) else x.(phase := Lost(x.phase.gen, x.phase.key, x.phase.behind), cache := None))
    case Refuse(p, retry) =>
      var x := s.procs[p];
      SetProc(s, p, x.(phase := if retry then Checking(x.phase.us, x.phase.remade) else Idle, cache := None, drop := x.drop + {x.phase.key}))
    case Lose(p) =>
      var x := s.procs[p];
      SetProc(s, p, x.(phase := Lost(x.phase.gen, x.phase.key, x.phase.behind), cache := None))
    case Reconcile(p, read) =>
      var x := s.procs[p];
      var f := x.phase;
      SetProc(s, p,
              if read && Last(s).names == Some(f.key)
              then x.(pending := FoldedInto(x.pending, f.behind), phase := Idle, drop := x.drop + OldObject(s, f.gen))
              else x.(phase := Idle, drop := if read then x.drop + {f.key} else x.drop))
    case Evict(p) => SetProc(s, p, s.procs[p].(cache := None))
    case Warm(p, key) => SetProc(s, p, s.procs[p].(cache := CacheLoaded(s.procs[p].cache, key, s.stored[key], true)))
    case Delete(p, key) =>
      SetProc(s, p, s.procs[p].(drop := s.procs[p].drop - {key})).(deleted := s.deleted + {key})
  }
}
