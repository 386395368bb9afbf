/**
 The run log of internal/engine/runlog.go as a value: the frames a run appended,
 folded past a budget into a checkpoint, and what a follower reads of them. The
 definitions are generic in what a frame is, so they serve both the events a
 frame encodes and the bytes it is made of.
 */
module RunLog {
  import opened Options
  import opened Events

  const MERGED_FRAME_BYTES: nat := 0x10_0000
  const RUN_LOG_BUDGET: nat := 0x200_0000

  datatype Entry<T> = Entry(data: T, kind: Kind, key: Key)

  /** What a fold is given: a frame's size, how deltas merge, and an activity as it stands. */
  datatype Ops<!T> = Ops(size: T -> nat, merge: seq<T> -> T, activity: Key -> Option<T>)

  /** A fold under way: the checkpoint so far and the run of deltas not yet in it. */
  datatype Folding<T> = Folding(
    checkpoint: seq<Entry<T>>, run: seq<Entry<T>>, size: nat, placed: set<Key>, dropped: seq<T>)

  function Datas<T>(es: seq<Entry<T>>): (ds: seq<T>)
    ensures |ds| == |es| && forall i :: 0 <= i < |es| ==> ds[i] == es[i].data
  {
    seq(|es|, i requires 0 <= i < |es| => es[i].data)
  }

  function Flushed<T>(st: Folding<T>, ops: Ops<T>): (r: Folding<T>)
    ensures r.run == [] && r.placed == st.placed
  {
    var n := |st.run|;
    if n > 2 then
      var deltas := Datas(st.run[..n - 1]);
      Folding(st.checkpoint + [Entry(ops.merge(deltas), Delta, st.run[0].key)] + [st.run[n - 1]],
              [], 0, st.placed, st.dropped + deltas)
    else
      Folding(st.checkpoint + st.run, [], 0, st.placed, st.dropped)
  }

  predicate Joins<T>(st: Folding<T>, e: Entry<T>, ops: Ops<T>) {
    && e.kind.Delta?
    && |st.run| > 0
    && st.run[0].key == e.key
    && st.size + ops.size(e.data) <= MERGED_FRAME_BYTES
  }

  function Taken<T>(st: Folding<T>, e: Entry<T>, ops: Ops<T>): Folding<T> {
    if Joins(st, e, ops) then
      st.(run := st.run + [e], size := st.size + ops.size(e.data))
    else
      Begun(Flushed(st, ops), e, ops)
  }

  /** A flushed fold with an entry that joins no run. */
  function Begun<T>(st: Folding<T>, e: Entry<T>, ops: Ops<T>): Folding<T> {
    match e.kind
    case Delta => st.(run := [e], size := ops.size(e.data))
    case Kept => st.(checkpoint := st.checkpoint + [e])
    case Report =>
      var now := ops.activity(e.key);
      var placing := e.key !in st.placed && now.Some?;
      st.(
        checkpoint := if placing then st.checkpoint + [Entry(now.value, Report, e.key)] else st.checkpoint,
        placed := st.placed + {e.key},
        dropped := st.dropped + [e.data])
  }

  function FoldedTo<T>(es: seq<Entry<T>>, ops: Ops<T>): Folding<T> {
    if es == [] then Folding([], [], 0, {}, [])
    else Taken(FoldedTo(es[..|es| - 1], ops), es[|es| - 1], ops)
  }

  /** The checkpoint of entries, and the frames it no longer holds. */
  function Folded<T>(es: seq<Entry<T>>, ops: Ops<T>): Folding<T> {
    Flushed(FoldedTo(es, ops), ops)
  }

  datatype Log<T> = Log(
    base: nat,
    checkpoint: seq<Entry<T>>,
    frames: seq<Entry<T>>,
    bytes: nat,
    budget: nat,
    closed: bool,
    folds: nat)

  function NewLog<T>(budget: nat): Log<T> {
    Log(0, [], [], 0, budget, false, 0)
  }

  function Appended<T>(l: Log<T>, e: Entry<T>, size: nat): Log<T> {
    if l.closed then l
    else l.(frames := l.frames + [e], bytes := l.bytes + size)
  }

  function Grown<T>(l: Log<T>, e: Entry<T>, ops: Ops<T>): Log<T> {
    Appended(l, e, ops.size(e.data))
  }

  predicate OverBudget<T>(l: Log<T>) {
    l.bytes > l.budget
  }

  function FoldedLog<T>(l: Log<T>, ops: Ops<T>): Log<T> {
    if l.closed then l
    else
      l.(checkpoint := Folded(l.checkpoint + l.frames, ops).checkpoint,
         base := l.base + |l.frames|, frames := [], bytes := 0, folds := l.folds + 1)
  }

  function Sent<T>(l: Log<T>): nat {
    l.base + |l.frames|
  }

  /** What a follower at a cursor is sent: a checkpoint it is behind, then the frames from first. */
  datatype Reading<T> = Reading(checkpoint: seq<T>, frames: seq<T>, first: nat)

  function Min(a: int, b: int): int {
    if a < b then a else b
  }

  function Read<T>(l: Log<T>, from: nat): Reading<T> {
    var first := if from < l.base then l.base else from;
    Reading(if from < l.base then Datas(l.checkpoint) else [],
            Datas(l.frames[Min(first - l.base, |l.frames|)..]), first)
  }

  // ---- A fold of encoded frames decodes to the fold of what they decode to ----

  function MapEntry<T, U>(f: T -> U, e: Entry<T>): Entry<U> {
    Entry(f(e.data), e.kind, e.key)
  }

  function Map<T, U>(f: T -> U, es: seq<T>): (us: seq<U>)
    ensures |us| == |es| && forall i :: 0 <= i < |es| ==> us[i] == f(es[i])
  {
    seq(|es|, i requires 0 <= i < |es| => f(es[i]))
  }

  function MapEntries<T, U>(f: T -> U, es: seq<Entry<T>>): (us: seq<Entry<U>>)
    ensures |us| == |es| && forall i :: 0 <= i < |es| ==> us[i] == MapEntry(f, es[i])
  {
    seq(|es|, i requires 0 <= i < |es| => MapEntry(f, es[i]))
  }

  function MapFolding<T, U>(f: T -> U, st: Folding<T>): Folding<U> {
    Folding(MapEntries(f, st.checkpoint), MapEntries(f, st.run), st.size, st.placed, Map(f, st.dropped))
  }

  function MapOption<T, U>(f: T -> U, o: Option<T>): Option<U> {
    match o
    case None => None
    case Some(v) => Some(f(v))
  }

  ghost predicate All<T>(ok: Entry<T> -> bool, es: seq<Entry<T>>) {
    forall i :: 0 <= i < |es| ==> ok(es[i])
  }

  /** Deltas to one target, as a fold gathers them. */
  ghost predicate IsDeltas<T>(ok: Entry<T> -> bool, es: seq<Entry<T>>) {
    All(ok, es) && forall i :: 0 <= i < |es| ==> es[i].kind.Delta? && es[i].key == es[0].key
  }

  /** On entries that are well made, f carries the operations on T to those on U, and they make well made ones. */
  ghost predicate Carries<T(!new), U>(f: T -> U, ok: Entry<T> -> bool, ops: Ops<T>, ops': Ops<U>) {
    && (forall e :: ok(e) ==> ops'.size(f(e.data)) == ops.size(e.data))
    && (forall es: seq<Entry<T>> :: |es| > 0 && IsDeltas(ok, es) ==> CarriesRun(f, ok, ops, ops', es))
    && (forall k :: CarriesActivity(f, ok, ops, ops', k))
  }

  ghost predicate CarriesRun<T, U>(f: T -> U, ok: Entry<T> -> bool, ops: Ops<T>, ops': Ops<U>, es: seq<Entry<T>>)
    requires |es| > 0
  {
    && ops'.merge(Map(f, Datas(es))) == f(ops.merge(Datas(es)))
    && ok(Entry(ops.merge(Datas(es)), Delta, es[0].key))
  }

  ghost predicate CarriesActivity<T, U>(f: T -> U, ok: Entry<T> -> bool, ops: Ops<T>, ops': Ops<U>, k: Key) {
    && ops'.activity(k) == MapOption(f, ops.activity(k))
    && (ops.activity(k).Some? ==> ok(Entry(ops.activity(k).value, Report, k)))
  }

  /** A fold under way holds well made entries, and gathers deltas to one target. */
  ghost predicate WellMade<T>(ok: Entry<T> -> bool, st: Folding<T>) {
    All(ok, st.checkpoint) && IsDeltas(ok, st.run)
  }

  lemma MapsConcat<T, U>(f: T -> U, a: seq<Entry<T>>, b: seq<Entry<T>>, c: seq<T>, d: seq<T>)
    ensures MapEntries(f, a + b) == MapEntries(f, a) + MapEntries(f, b)
    ensures Map(f, c + d) == Map(f, c) + Map(f, d)
  {}

  lemma FlushedCarries<T(!new), U>(f: T -> U, ok: Entry<T> -> bool, st: Folding<T>, ops: Ops<T>, ops': Ops<U>)
    requires Carries(f, ok, ops, ops') && WellMade(ok, st)
    ensures Flushed(MapFolding(f, st), ops') == MapFolding(f, Flushed(st, ops)) && WellMade(ok, Flushed(st, ops))
  {
    var n := |st.run|;
    if n > 2 {
      assert IsDeltas(ok, st.run[..n - 1]);
      assert CarriesRun(f, ok, ops, ops', st.run[..n - 1]);
      FlushedMerges(f, st, ops, ops');
    } else {
      MapsConcat(f, st.checkpoint, st.run, [], []);
    }
  }

  lemma FlushedMerges<T, U>(f: T -> U, st: Folding<T>, ops: Ops<T>, ops': Ops<U>)
    requires |st.run| > 2
    requires ops'.merge(Map(f, Datas(st.run[..|st.run| - 1]))) == f(ops.merge(Datas(st.run[..|st.run| - 1])))
    ensures Flushed(MapFolding(f, st), ops') == MapFolding(f, Flushed(st, ops))
  {
    var n := |st.run|;
    var deltas := Datas(st.run[..n - 1]);
    assert Datas(MapEntries(f, st.run)[..n - 1]) == Map(f, deltas);
    var merged, last := Entry(ops.merge(deltas), Delta, st.run[0].key), st.run[n - 1];
    MapsConcat(f, st.checkpoint + [merged], [last], st.dropped, deltas);
    MapsConcat(f, st.checkpoint, [merged], [], []);
    assert MapEntries(f, [merged]) == [MapEntry(f, merged)];
    assert MapEntries(f, [last]) == [MapEntry(f, last)];
  }

  lemma TakenCarries<T(!new), U>(f: T -> U, ok: Entry<T> -> bool, st: Folding<T>, e: Entry<T>, ops: Ops<T>, ops': Ops<U>)
    requires Carries(f, ok, ops, ops') && WellMade(ok, st) && ok(e)
    ensures Taken(MapFolding(f, st), MapEntry(f, e), ops') == MapFolding(f, Taken(st, e, ops)) && WellMade(ok, Taken(st, e, ops))
  {
    hide Taken, WellMade, Flushed;
    assert ops'.size(f(e.data)) == ops.size(e.data);
    assert CarriesActivity(f, ok, ops, ops', e.key);
    FlushedCarries(f, ok, st, ops, ops');
    TakenMaps(f, st, e, ops, ops');
    TakenWellMade(f, ok, st, e, ops, ops');
  }

  lemma TakenWellMade<T, U>(f: T -> U, ok: Entry<T> -> bool, st: Folding<T>, e: Entry<T>, ops: Ops<T>, ops': Ops<U>)
    requires WellMade(ok, st) && WellMade(ok, Flushed(st, ops)) && ok(e) && CarriesActivity(f, ok, ops, ops', e.key)
    ensures WellMade(ok, Taken(st, e, ops))
  {
    hide Flushed;
    assert Flushed(st, ops).run == [];
  }

  lemma TakenMaps<T, U>(f: T -> U, st: Folding<T>, e: Entry<T>, ops: Ops<T>, ops': Ops<U>)
    requires ops'.size(f(e.data)) == ops.size(e.data)
    requires ops'.activity(e.key) == MapOption(f, ops.activity(e.key))
    requires Flushed(MapFolding(f, st), ops') == MapFolding(f, Flushed(st, ops))
    ensures Taken(MapFolding(f, st), MapEntry(f, e), ops') == MapFolding(f, Taken(st, e, ops))
  {
    hide Flushed;
    assert MapEntries(f, [e]) == [MapEntry(f, e)];
    if Joins(st, e, ops) {
      MapsConcat(f, st.run, [e], [], []);
    } else {
      var flushed := Flushed(st, ops);
      assert flushed.run == [];
      MapsConcat(f, flushed.checkpoint, [e], flushed.dropped, [e.data]);
      assert Map(f, [e.data]) == [f(e.data)];
      var now := ops.activity(e.key);
      if now.Some? {
        var placed := Entry(now.value, Report, e.key);
        MapsConcat(f, flushed.checkpoint, [placed], [], []);
        assert MapEntries(f, [placed]) == [MapEntry(f, placed)];
      }
    }
  }

  lemma {:induction false} FoldedToCarries<T(!new), U>(f: T -> U, ok: Entry<T> -> bool, es: seq<Entry<T>>, ops: Ops<T>, ops': Ops<U>)
    requires Carries(f, ok, ops, ops') && All(ok, es)
    ensures FoldedTo(MapEntries(f, es), ops') == MapFolding(f, FoldedTo(es, ops)) && WellMade(ok, FoldedTo(es, ops))
  {
    hide Taken, Carries;
    if es != [] {
      var n := |es|;
      FoldedToCarries(f, ok, es[..n - 1], ops, ops');
      assert MapEntries(f, es)[..n - 1] == MapEntries(f, es[..n - 1]);
      TakenCarries(f, ok, FoldedTo(es[..n - 1], ops), es[n - 1], ops, ops');
    }
  }

  /** Folding what frames decode to gives what the fold of the frames decodes to, frame for frame. */
  lemma FoldCommutesWithDecoding<T(!new), U>(f: T -> U, ok: Entry<T> -> bool, es: seq<Entry<T>>, ops: Ops<T>, ops': Ops<U>)
    requires Carries(f, ok, ops, ops') && All(ok, es)
    ensures Folded(MapEntries(f, es), ops') == MapFolding(f, Folded(es, ops)) && All(ok, Folded(es, ops).checkpoint)
  {
    hide Carries;
    FoldedToCarries(f, ok, es, ops, ops');
    FlushedCarries(f, ok, FoldedTo(es, ops), ops, ops');
  }
}
