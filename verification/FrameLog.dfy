/**
 FrameLog of internal/engine/runlog.go over its byte buffers. A log owns the
 buffers it was given and those a fold made: each is live, retired by a fold
 until the streams that read it have sent it, or wiped, that is zeroed in place.
 A stream holds what it read, outside the log's lock, until its done.
 */
module FrameLogs {
  import opened Options
  import opened Events
  import opened RunLog

  newtype byte = x: int | 0 <= x < 256

  type Buffer = array<byte>
  type Bytes = seq<byte>

  /** What one fold left out of its checkpoint, numbered by that fold. */
  datatype Retired = Retired(folds: nat, frames: seq<Buffer>)

  /** What a stream holds of the log: the folds made before it read, its buffers and what they held then. */
  datatype Loan = Loan(folds: nat, frames: seq<Buffer>, contents: seq<Bytes>)

  ghost predicate Zeroed(b: Buffer)
    reads b
  {
    forall i :: 0 <= i < b.Length ==> b[i] == 0
  }

  ghost function RetiredBag(rs: seq<Retired>): multiset<Buffer> {
    if rs == [] then multiset{} else RetiredBag(rs[..|rs| - 1]) + multiset(rs[|rs| - 1].frames)
  }

  /** A fold's operations on bytes: a frame's size is its length. */
  function ByteOps(merge: seq<Bytes> -> Bytes, activity: Key -> Option<Bytes>): Ops<Bytes> {
    Ops((b: Bytes) => |b|, merge, activity)
  }

  ghost function Deep(es: seq<Entry<Buffer>>): (ds: seq<Entry<Bytes>>)
    reads set i | 0 <= i < |es| :: es[i].data
    ensures |ds| == |es|
    ensures forall i :: 0 <= i < |es| ==> ds[i] == Entry(es[i].data[..], es[i].kind, es[i].key)
  {
    seq(|es|, i requires 0 <= i < |es| reads set j | 0 <= j < |es| :: es[j].data => Entry(es[i].data[..], es[i].kind, es[i].key))
  }

  ghost function Contents(bs: seq<Buffer>): (cs: seq<Bytes>)
    reads set i | 0 <= i < |bs| :: bs[i]
    ensures |cs| == |bs| && forall i :: 0 <= i < |bs| ==> cs[i] == bs[i][..]
  {
    seq(|bs|, i requires 0 <= i < |bs| reads set j | 0 <= j < |bs| :: bs[j] => bs[i][..])
  }

  method NewBuffer(content: Bytes) returns (b: Buffer)
    ensures fresh(b) && b[..] == content
  {
    b := new byte[|content|](i requires 0 <= i < |content| => content[i]);
  }

  method Clear(b: Buffer)
    modifies b
    ensures Zeroed(b)
  {
    for i := 0 to b.Length
      invariant forall j :: 0 <= j < i ==> b[j] == 0
    {
      b[i] := 0;
    }
  }

  method ClearAll(bs: seq<Buffer>)
    modifies set i | 0 <= i < |bs| :: bs[i]
    ensures forall i :: 0 <= i < |bs| ==> Zeroed(bs[i])
    ensures forall b: Buffer :: old(allocated(b)) && old(Zeroed(b)) ==> Zeroed(b)
  {
    for n := 0 to |bs|
      invariant forall b: Buffer :: old(allocated(b)) && old(Zeroed(b)) ==> Zeroed(b)
      invariant forall i :: 0 <= i < n ==> Zeroed(bs[i])
    {
      Clear(bs[n]);
    }
  }

  // ---- Folding buffers ----

  /** A fold under way over buffers, in terms of the bytes they hold. */
  ghost function DeepFolding(st: Folding<Buffer>): Folding<Bytes>
    reads set i | 0 <= i < |st.checkpoint| :: st.checkpoint[i].data
    reads set i | 0 <= i < |st.run| :: st.run[i].data
    reads set i | 0 <= i < |st.dropped| :: st.dropped[i]
  {
    Folding(Deep(st.checkpoint), Deep(st.run), st.size, st.placed, Contents(st.dropped))
  }

  /** The buffers a fold under way accounts for, each as often as it holds it. */
  ghost function Bag(st: Folding<Buffer>): multiset<Buffer> {
    multiset(Datas(st.checkpoint)) + multiset(Datas(st.run)) + multiset(st.dropped)
  }

  lemma BagOfConcat(a: seq<Entry<Buffer>>, b: seq<Entry<Buffer>>)
    ensures multiset(Datas(a + b)) == multiset(Datas(a)) + multiset(Datas(b))
  {
    assert Datas(a + b) == Datas(a) + Datas(b);
  }

  /** Puts a run of deltas in the checkpoint: all but the last merged into a new buffer, then the last. */
  method Flush(st: Folding<Buffer>, merge: seq<Bytes> -> Bytes, activity: Key -> Option<Bytes>)
    returns (r: Folding<Buffer>, ghost made: set<Buffer>)
    ensures DeepFolding(r) == Flushed(old(DeepFolding(st)), ByteOps(merge, activity)) && r.run == []
    ensures fresh(made) && Bag(r) == Bag(st) + multiset(made)
  {
    hide Flushed, Bag, DeepFolding, MergedRun;
    if |st.run| > 2 {
      var merged := MergeRun(st, merge);
      made := {merged};
      r := MergedRun(st, merged);
      MergedRunBag(st, merged);
      MergedRunDeep(st, merged, ByteOps(merge, activity));
    } else {
      made := {};
      r := Folding(st.checkpoint + st.run, [], 0, st.placed, st.dropped);
      ShortRun(st, ByteOps(merge, activity));
    }
  }

  /** One new buffer for all but the last of a run of deltas. */
  method MergeRun(st: Folding<Buffer>, merge: seq<Bytes> -> Bytes) returns (merged: Buffer)
    requires |st.run| > 2
    ensures fresh(merged) && DeepFolding(st) == old(DeepFolding(st))
    ensures merged[..] == merge(Contents(Datas(st.run[..|st.run| - 1])))
  {
    var contents := ReadAll(Datas(st.run[..|st.run| - 1]));
    merged := NewBuffer(merge(contents));
  }

  lemma ShortRun(st: Folding<Buffer>, ops: Ops<Bytes>)
    requires |st.run| <= 2
    ensures var r := Folding(st.checkpoint + st.run, [], 0, st.placed, st.dropped);
            DeepFolding(r) == Flushed(DeepFolding(st), ops) && Bag(r) == Bag(st)
  {
    BagOfConcat(st.checkpoint, st.run);
    assert Deep(st.checkpoint + st.run) == Deep(st.checkpoint) + Deep(st.run);
  }

  /** A run of deltas put in the checkpoint with all but the last in one buffer. */
  function MergedRun(st: Folding<Buffer>, merged: Buffer): (r: Folding<Buffer>)
    requires |st.run| > 2
    ensures r.run == []
  {
    var n := |st.run|;
    Folding(st.checkpoint + [Entry(merged, Delta, st.run[0].key)] + [st.run[n - 1]], [], 0, st.placed,
            st.dropped + Datas(st.run[..n - 1]))
  }

  lemma MergedRunBag(st: Folding<Buffer>, merged: Buffer)
    requires |st.run| > 2
    ensures Bag(MergedRun(st, merged)) == Bag(st) + multiset{merged}
  {
    var n := |st.run|;
    var e, last := Entry(merged, Delta, st.run[0].key), st.run[n - 1];
    assert st.run == st.run[..n - 1] + [last];
    BagOfConcat(st.run[..n - 1], [last]);
    BagOfConcat(st.checkpoint + [e], [last]);
    BagOfConcat(st.checkpoint, [e]);
    assert Datas([e]) == [merged] && Datas([last]) == [last.data];
  }

  lemma MergedRunDeep(st: Folding<Buffer>, merged: Buffer, ops: Ops<Bytes>)
    requires |st.run| > 2
    requires merged[..] == ops.merge(Contents(Datas(st.run[..|st.run| - 1])))
    ensures DeepFolding(MergedRun(st, merged)) == Flushed(DeepFolding(st), ops)
  {
    var n := |st.run|;
    var e, last := Entry(merged, Delta, st.run[0].key), st.run[n - 1];
    assert Datas(Deep(st.run)[..n - 1]) == Contents(Datas(st.run[..n - 1]));
    assert Deep(st.checkpoint + [e] + [last]) == Deep(st.checkpoint) + [Entry(merged[..], Delta, e.key)] + [Deep(st.run)[n - 1]];
    assert Contents(st.dropped + Datas(st.run[..n - 1])) == Contents(st.dropped) + Contents(Datas(st.run[..n - 1]));
  }

  method ReadAll(bs: seq<Buffer>) returns (cs: seq<Bytes>)
    ensures cs == Contents(bs)
  {
    cs := [];
    for i := 0 to |bs|
      invariant cs == Contents(bs)[..i]
    {
      cs := cs + [bs[i][..]];
    }
  }

  lemma JoinsDeep(st: Folding<Buffer>, e: Entry<Buffer>, ops: Ops<Bytes>, size: nat)
    requires Joins(DeepFolding(st), Deep([e])[0], ops)
    requires size == st.size + ops.size(e.data[..])
    ensures DeepFolding(st.(run := st.run + [e], size := size)) == Taken(DeepFolding(st), Deep([e])[0], ops)
    ensures Bag(st.(run := st.run + [e], size := size)) == Bag(st) + multiset{e.data}
  {
    assert Deep(st.run + [e]) == Deep(st.run) + [Deep([e])[0]];
    BagOfConcat(st.run, [e]);
    assert Datas([e]) == [e.data];
  }

  /** An entry that begins a run or stands by itself; a report's place is taken by what now stands for it. */
  method Begin(st: Folding<Buffer>, e: Entry<Buffer>, merge: seq<Bytes> -> Bytes, activity: Key -> Option<Bytes>)
    returns (r: Folding<Buffer>, ghost made: set<Buffer>)
    requires st.run == []
    ensures DeepFolding(r) == Begun(old(DeepFolding(st)), old(Deep([e]))[0], ByteOps(merge, activity))
    ensures fresh(made) && Bag(r) == Bag(st) + multiset{e.data} + multiset(made)
  {
    made := {};
    if e.kind.Delta? {
      r := st.(run := [e], size := e.data.Length);
      assert Datas([e]) == [e.data] && Datas(st.run) == [];
    } else if e.kind.Kept? {
      r := st.(checkpoint := st.checkpoint + [e]);
      AppendDeep(st, e);
    } else {
      r, made := Place(st, e, merge, activity);
    }
  }

  method Place(st: Folding<Buffer>, e: Entry<Buffer>, merge: seq<Bytes> -> Bytes, activity: Key -> Option<Bytes>)
    returns (r: Folding<Buffer>, ghost made: set<Buffer>)
    requires st.run == [] && e.kind.Report?
    ensures DeepFolding(r) == Begun(old(DeepFolding(st)), old(Deep([e]))[0], ByteOps(merge, activity))
    ensures fresh(made) && Bag(r) == Bag(st) + multiset{e.data} + multiset(made)
  {
    made := {};
    r := st.(placed := st.placed + {e.key}, dropped := st.dropped + [e.data]);
    DropDeep(st, e.data);
    var now := activity(e.key);
    if e.key !in st.placed && now.Some? {
      var frame := NewBuffer(now.value);
      made := {frame};
      r := r.(checkpoint := st.checkpoint + [Entry(frame, Report, e.key)]);
      AppendDeep(st, Entry(frame, Report, e.key));
    }
  }

  lemma DropDeep(st: Folding<Buffer>, b: Buffer)
    ensures Contents(st.dropped + [b]) == Contents(st.dropped) + [b[..]]
    ensures multiset(st.dropped + [b]) == multiset(st.dropped) + multiset{b}
  {}

  lemma AppendDeep(st: Folding<Buffer>, e: Entry<Buffer>)
    ensures Deep(st.checkpoint + [e]) == Deep(st.checkpoint) + [Entry(e.data[..], e.kind, e.key)]
    ensures multiset(Datas(st.checkpoint + [e])) == multiset(Datas(st.checkpoint)) + multiset{e.data}
  {
    BagOfConcat(st.checkpoint, [e]);
    assert Datas([e]) == [e.data];
  }

  /** The checkpoint of entries, and the buffers it no longer holds: none is lost, and those made are new. */
  method FoldEntries(es: seq<Entry<Buffer>>, merge: seq<Bytes> -> Bytes, activity: Key -> Option<Bytes>)
    returns (st: Folding<Buffer>, ghost made: set<Buffer>)
    ensures DeepFolding(st) == Folded(old(Deep(es)), ByteOps(merge, activity)) && st.run == []
    ensures fresh(made)
    ensures multiset(Datas(st.checkpoint)) + multiset(st.dropped) == multiset(Datas(es)) + multiset(made)
  {
    hide Flushed, Taken, ByteOps, Bag, DeepFolding, FoldedTo;
    ghost var ops := ByteOps(merge, activity);
    st, made := Folding([], [], 0, {}, []), {};
    ghost var deep := Deep(es);
    NothingFolded(es, ops);
    for i := 0 to |es|
      invariant fresh(made)
      invariant DeepFolding(st) == FoldedTo(deep[..i], ops)
      invariant Bag(st) == multiset(Datas(es[..i])) + multiset(made)
    {
      ghost var more;
      NextPrefix(es, deep, i, ops);
      assert Deep([es[i]])[0] == deep[i];
      st, more := TakeEntry(st, es[i], merge, activity);
      assert multiset(made + more) == multiset(made) + multiset(more);
      made := made + more;
    }
    assert es[..|es|] == es && deep[..|es|] == deep;
    ghost var more;
    st, more := Flush(st, merge, activity);
    BagOfFlushed(st);
    assert multiset(made + more) == multiset(made) + multiset(more);
    made := made + more;
  }

  lemma NothingFolded(es: seq<Entry<Buffer>>, ops: Ops<Bytes>)
    ensures var st: Folding<Buffer> := Folding([], [], 0, {}, []);
            DeepFolding(st) == FoldedTo([], ops) && Bag(st) == multiset(Datas(es[..0])) == multiset{}
  {
    var none: seq<Entry<Buffer>> := [];
    assert Deep(none) == [] && Datas(none) == [];
  }

  lemma BagOfFlushed(st: Folding<Buffer>)
    requires st.run == []
    ensures Bag(st) == multiset(Datas(st.checkpoint)) + multiset(st.dropped)
  {
    assert Datas(st.run) == [];
  }

  lemma NextPrefix(es: seq<Entry<Buffer>>, deep: seq<Entry<Bytes>>, i: nat, ops: Ops<Bytes>)
    requires i < |es| == |deep|
    ensures FoldedTo(deep[..i + 1], ops) == Taken(FoldedTo(deep[..i], ops), deep[i], ops)
    ensures multiset(Datas(es[..i + 1])) == multiset(Datas(es[..i])) + multiset{es[i].data}
  {
    hide Taken;
    assert deep[..i + 1][..i] == deep[..i];
    assert es[..i + 1] == es[..i] + [es[i]];
    BagOfConcat(es[..i], [es[i]]);
    assert Datas([es[i]]) == [es[i].data];
  }

  method TakeEntry(st: Folding<Buffer>, e: Entry<Buffer>, merge: seq<Bytes> -> Bytes, activity: Key -> Option<Bytes>)
    returns (st': Folding<Buffer>, ghost made: set<Buffer>)
    ensures fresh(made)
    ensures DeepFolding(st') == Taken(old(DeepFolding(st)), old(Deep([e]))[0], ByteOps(merge, activity))
    ensures Bag(st') == Bag(st) + multiset{e.data} + multiset(made)
  {
    hide Flushed, Begun, Bag;
    if e.kind.Delta? && |st.run| > 0 && st.run[0].key == e.key && st.size + e.data.Length <= MERGED_FRAME_BYTES {
      JoinsDeep(st, e, ByteOps(merge, activity), st.size + e.data.Length);
      st', made := st.(run := st.run + [e], size := st.size + e.data.Length), {};
    } else {
      ghost var more;
      st', made := Flush(st, merge, activity);
      st', more := Begin(st', e, merge, activity);
      assert multiset(made + more) == multiset(made) + multiset(more);
      made := made + more;
    }
  }

  /** The checkpoint of entries over new and old buffers, and the buffers it drops. */
  method Checkpointed(es: seq<Entry<Buffer>>, merge: seq<Bytes> -> Bytes, activity: Key -> Option<Bytes>)
    returns (entries: seq<Entry<Buffer>>, dropped: seq<Buffer>, ghost made: set<Buffer>, ghost shown: seq<Entry<Bytes>>)
    ensures Holds(entries, shown) && shown == Folded(old(Deep(es)), ByteOps(merge, activity)).checkpoint
    ensures fresh(made)
    ensures multiset(Datas(entries)) + multiset(dropped) == multiset(Datas(es)) + multiset(made)
  {
    hide Folded;
    var st;
    st, made := FoldEntries(es, merge, activity);
    entries, dropped, shown := st.checkpoint, st.dropped, Deep(st.checkpoint);
  }

  ghost predicate Holds(es: seq<Entry<Buffer>>, ds: seq<Entry<Bytes>>)
    reads set i | 0 <= i < |es| :: es[i].data
  {
    |es| == |ds| && forall i :: 0 <= i < |es| ==> ds[i] == Entry(es[i].data[..], es[i].kind, es[i].key)
  }

  // ---- Bags of buffers ----

  lemma RetiredBagGrows(rs: seq<Retired>, r: Retired)
    ensures RetiredBag(rs + [r]) == RetiredBag(rs) + multiset(r.frames)
  {
    assert (rs + [r])[..|rs|] == rs;
  }

  lemma {:induction false} RetiredBagHolds(rs: seq<Retired>, i: nat, b: Buffer)
    requires i < |rs| && b in rs[i].frames
    ensures RetiredBag(rs)[b] >= 1
  {
    if i < |rs| - 1 {
      RetiredBagHolds(rs[..|rs| - 1], i, b);
    } else {
      assert multiset(rs[i].frames)[b] >= 1;
    }
  }

  /** The buffers of a sequence without repeats, as a set. */
  ghost function Members(bs: seq<Buffer>): set<Buffer> {
    set i | 0 <= i < |bs| :: bs[i]
  }

  lemma MembersOfConcat(a: seq<Buffer>, b: seq<Buffer>)
    ensures Members(a + b) == Members(a) + Members(b)
    ensures forall i :: 0 <= i < |b| ==> b[i] in Members(b)
    ensures forall x :: x in Members(b) ==> exists i :: 0 <= i < |b| && b[i] == x
  {
    forall x | x in Members(b) ensures x in Members(a + b) {
      var i :| 0 <= i < |b| && b[i] == x;
      assert (a + b)[|a| + i] == x;
    }
    forall x | x in Members(a) ensures x in Members(a + b) {
      var i :| 0 <= i < |a| && a[i] == x;
      assert (a + b)[i] == x;
    }
  }

  lemma BagOfMembers(bs: seq<Buffer>)
    requires forall b :: multiset(bs)[b] <= 1
    ensures multiset(Members(bs)) == multiset(bs)
  {
    forall b ensures multiset(Members(bs))[b] == multiset(bs)[b] {
      assert b in Members(bs) <==> b in bs;
      assert b in bs <==> b in multiset(bs);
    }
  }

  /** The loans made after a number of folds. */
  ghost function Borrowers(loans: map<nat, Loan>, f: nat): set<nat> {
    set id | id in loans && loans[id].folds == f
  }

  /** An id no loan has. */
  ghost function Unused(ids: set<nat>): (id: nat)
    ensures forall x :: x in ids ==> x < id
  {
    if ids == {} then 0
    else
      var x :| x in ids;
      var y := Unused(ids - {x});
      assert forall z :: z in ids ==> z == x || z in ids - {x};
      if x < y then y else x + 1
  }

  /** lent counts the loans by the folds made before them. */
  ghost predicate Counted(loans: map<nat, Loan>, lent: map<nat, nat>) {
    && (forall f :: f in lent ==> lent[f] == |Borrowers(loans, f)| && lent[f] > 0)
    && (forall id :: id in loans ==> loans[id].folds in lent)
  }

  lemma LendCounts(loans: map<nat, Loan>, lent: map<nat, nat>, id: nat, loan: Loan)
    requires Counted(loans, lent) && id !in loans
    ensures Counted(loans[id := loan], lent[loan.folds := (if loan.folds in lent then lent[loan.folds] else 0) + 1])
  {
    var loans' := loans[id := loan];
    forall f: nat ensures Borrowers(loans', f) == if f == loan.folds then Borrowers(loans, f) + {id} else Borrowers(loans, f) {}
    if loan.folds !in lent {
      assert Borrowers(loans, loan.folds) == {};
    }
  }

  lemma LendSize(loans: map<nat, Loan>, id: nat, loan: Loan)
    requires id !in loans
    ensures |loans[id := loan]| == |loans| + 1
  {
    assert loans[id := loan].Keys == loans.Keys + {id};
  }

  lemma ReturnCounts(loans: map<nat, Loan>, lent: map<nat, nat>, id: nat)
    requires Counted(loans, lent) && id in loans
    ensures loans[id].folds in lent && lent[loans[id].folds] > 0
    ensures var f := loans[id].folds;
            Counted(loans - {id}, if lent[f] == 1 then lent - {f} else lent[f := lent[f] - 1])
  {
    var f, loans' := loans[id].folds, loans - {id};
    forall g: nat ensures Borrowers(loans', g) == if g == f then Borrowers(loans, g) - {id} else Borrowers(loans, g) {}
    assert id in Borrowers(loans, f);
    if lent[f] == 1 {
      assert |Borrowers(loans, f)| == 1 && Borrowers(loans', f) == Borrowers(loans, f) - {id};
      assert |Borrowers(loans, f) - {id}| == 0;
      assert Borrowers(loans', f) == {};
      forall other | other in loans' ensures loans'[other].folds in lent - {f} {
        assert other !in Borrowers(loans', f);
      }
    }
  }

  /** Zeroes the frames retired by up to a number of folds, and keeps the others. */
  method FreeRetired(rs: seq<Retired>, oldest: nat, ghost owned: set<Buffer>) returns (kept: seq<Retired>, ghost freed: seq<Buffer>)
    requires forall i :: 0 <= i < |rs| ==> Members(rs[i].frames) <= owned
    modifies owned
    ensures RetiredBag(kept) + multiset(freed) == RetiredBag(rs) && Members(freed) <= owned
    ensures forall b :: b in owned && (b in Members(freed) || old(Zeroed(b))) ==> Zeroed(b)
    ensures forall b :: b in owned && b !in Members(freed) ==> b[..] == old(b[..])
    ensures Sifted(rs, kept, oldest)
  {
    hide RetiredBag, Members, Sifted, Zeroed;
    kept, freed := [], [];
    NoneRetired(rs, oldest);
    for i := 0 to |rs|
      invariant RetiredBag(kept) + multiset(freed) == RetiredBag(rs[..i]) && Members(freed) <= owned
      invariant forall b :: b in owned && (b in Members(freed) || old(Zeroed(b))) ==> Zeroed(b)
      invariant forall b :: b in owned && b !in Members(freed) ==> b[..] == old(b[..])
      invariant Sifted(rs[..i], kept, oldest)
    {
      SiftNext(rs, kept, oldest, i);
      RetiredNext(rs, kept, freed, i);
      if rs[i].folds > oldest {
        kept := kept + [rs[i]];
      } else {
        MembersOfConcat(freed, rs[i].frames);
        ClearAll(rs[i].frames);
        freed := freed + rs[i].frames;
      }
    }
    assert rs[..|rs|] == rs;
  }

  /** A buffer no reclaim wipes while a stream that read after f folds holds it. */
  ghost predicate Reach(checkpoint: seq<Entry<Buffer>>, frames: seq<Entry<Buffer>>, retired: seq<Retired>, b: Buffer, f: nat) {
    || b in Datas(checkpoint)
    || b in Datas(frames)
    || exists i :: 0 <= i < |retired| && retired[i].folds > f && b in retired[i].frames
  }

  ghost predicate HasBefore(lent: set<nat>, n: nat) {
    exists f :: f in lent && f < n
  }

  ghost predicate AwaitedBy(retired: seq<Retired>, lent: set<nat>) {
    forall i :: 0 <= i < |retired| ==> HasBefore(lent, retired[i].folds)
  }

  lemma BeforeThem(lent: set<nat>, f: nat, n: nat)
    requires f in lent && f < n
    ensures HasBefore(lent, n)
  {}

  lemma HasBeforeMore(lent: set<nat>, more: set<nat>, n: nat)
    requires HasBefore(lent, n) && lent <= more
    ensures HasBefore(more, n)
  {
    var f :| f in lent && f < n;
    assert f in more;
  }

  lemma AwaitedByMore(retired: seq<Retired>, lent: set<nat>, more: set<nat>)
    requires AwaitedBy(retired, lent) && lent <= more
    ensures AwaitedBy(retired, more)
  {
    hide HasBefore;
    forall i | 0 <= i < |retired| ensures HasBefore(more, retired[i].folds) {
      HasBeforeMore(lent, more, retired[i].folds);
    }
  }

  /** Each buffer accepted is live, retired or wiped, and in one place alone. */
  ghost predicate Owned(checkpoint: seq<Entry<Buffer>>, frames: seq<Entry<Buffer>>, retired: seq<Retired>,
                        wiped: set<Buffer>, accepted: set<Buffer>) {
    multiset(Datas(checkpoint)) + multiset(Datas(frames)) + RetiredBag(retired) + multiset(wiped) == multiset(accepted)
  }

  /** A fold neither loses a buffer nor holds one twice. */
  lemma FoldOwned(checkpoint: seq<Entry<Buffer>>, frames: seq<Entry<Buffer>>, retired: seq<Retired>,
                  wiped: set<Buffer>, accepted: set<Buffer>,
                  checkpoint': seq<Entry<Buffer>>, dropped: Retired, made: set<Buffer>)
    requires Owned(checkpoint, frames, retired, wiped, accepted) && made !! accepted
    requires multiset(Datas(checkpoint')) + multiset(dropped.frames) == multiset(Datas(checkpoint + frames)) + multiset(made)
    ensures Owned(checkpoint', [], retired + [dropped], wiped, accepted + made)
  {
    hide RetiredBag;
    BagOfConcat(checkpoint, frames);
    RetiredBagGrows(retired, dropped);
    assert multiset(accepted + made) == multiset(accepted) + multiset(made);
    var none: seq<Entry<Buffer>> := [];
    assert Datas(none) == [];
    MoveBags(multiset(Datas(checkpoint')), multiset(dropped.frames), multiset(Datas(checkpoint)), multiset(Datas(frames)),
             multiset(made), RetiredBag(retired), multiset(wiped), multiset(accepted));
  }

  lemma MoveBags(new_: multiset<Buffer>, out: multiset<Buffer>, a: multiset<Buffer>, b: multiset<Buffer>,
                 made: multiset<Buffer>, r: multiset<Buffer>, w: multiset<Buffer>, all: multiset<Buffer>)
    requires new_ + out == a + b + made && a + b + r + w == all
    ensures new_ + multiset{} + (r + out) + w == all + made
  {
    forall x ensures (new_ + multiset{} + (r + out) + w)[x] == (all + made)[x] {
      assert (new_ + out)[x] == (a + b + made)[x];
      assert (a + b + r + w)[x] == all[x];
    }
  }

  /** What a stream holds is in the new checkpoint, or retired by the fold, which came after it read. */
  lemma FoldReaches(checkpoint: seq<Entry<Buffer>>, frames: seq<Entry<Buffer>>, retired: seq<Retired>,
                    checkpoint': seq<Entry<Buffer>>, dropped: Retired, b: Buffer, f: nat)
    requires Reach(checkpoint, frames, retired, b, f) && dropped.folds > f
    requires multiset(Datas(checkpoint + frames)) <= multiset(Datas(checkpoint')) + multiset(dropped.frames)
    ensures Reach(checkpoint', [], retired + [dropped], b, f)
  {
    BagOfConcat(checkpoint, frames);
    var n, all := |retired|, multiset(Datas(checkpoint')) + multiset(dropped.frames);
    if b in Datas(checkpoint) || b in Datas(frames) {
      assert multiset(Datas(checkpoint + frames))[b] > 0;
      assert all[b] > 0;
      if b !in Datas(checkpoint') {
        assert b in dropped.frames;
        assert (retired + [dropped])[n] == dropped;
      }
    } else {
      var i :| 0 <= i < n && retired[i].folds > f && b in retired[i].frames;
      assert (retired + [dropped])[i] == retired[i];
    }
  }

  // ---- The log ----

  class FrameLog {
    var base: nat
    var checkpoint: seq<Entry<Buffer>>
    var frames: seq<Entry<Buffer>>
    var bytes: nat
    var budget: nat
    var closed: bool
    var ended: bool
    var draining: nat
    var held: bool
    var folds: nat
    var lent: map<nat, nat>
    var retired: seq<Retired>

    ghost var accepted: set<Buffer>      // every buffer the log was given or made
    ghost var wiped: set<Buffer>         // those it zeroed and dropped
    ghost var loans: map<nat, Loan>      // what streams hold and have not sent

    ghost var shownCheckpoint: seq<Entry<Bytes>>  // what the live buffers hold
    ghost var shownFrames: seq<Entry<Bytes>>

    /** The log as a value, over the bytes its live buffers hold. */
    ghost function View(): Log<Bytes>
      reads this
    {
      Log(base, shownCheckpoint, shownFrames, bytes, budget, closed, folds)
    }

    ghost predicate Shown()
      reads this`checkpoint, this`frames, this`shownCheckpoint, this`shownFrames, this`accepted, accepted
    {
      && (forall i :: 0 <= i < |checkpoint| ==> checkpoint[i].data in accepted)
      && (forall i :: 0 <= i < |frames| ==> frames[i].data in accepted)
      && shownCheckpoint == Deep(checkpoint)
      && shownFrames == Deep(frames)
    }

    /** Each buffer accepted is live, retired or wiped, and in one place alone. */
    ghost predicate Owns()
      reads this`checkpoint, this`frames, this`retired, this`wiped, this`accepted
    {
      Owned(checkpoint, frames, retired, wiped, accepted)
    }

    ghost predicate InReach(b: Buffer, f: nat)
      reads this`checkpoint, this`frames, this`retired
    {
      Reach(checkpoint, frames, retired, b, f)
    }

    /** Every stream still holds, intact, what it read. */
    ghost predicate Lends()
      reads this`checkpoint, this`frames, this`retired, this`loans, this`folds, this`accepted, accepted
    {
      forall id :: id in loans ==> loans[id].folds <= folds && Intact(loans[id])
    }

    ghost predicate Intact(loan: Loan)
      reads this`checkpoint, this`frames, this`retired, this`accepted, accepted
    {
      && |loan.frames| == |loan.contents|
      && forall i :: 0 <= i < |loan.frames| ==>
           && loan.frames[i] in accepted
           && InReach(loan.frames[i], loan.folds)
           && loan.frames[i][..] == loan.contents[i]
    }

    ghost predicate Wiped()
      reads this`wiped, this`accepted, accepted
    {
      forall b :: b in wiped ==> b in accepted && Zeroed(b)
    }

    /** Once ended, with nothing draining or holding it, the log keeps nothing. */
    ghost predicate Emptied()
      reads this`ended, this`draining, this`held, this`checkpoint, this`frames, this`retired
    {
      ended && draining == 0 && !held ==> checkpoint == [] && frames == [] && retired == []
    }

    /** What holds between steps and within one, but for what a step has yet to wipe. */
    ghost predicate Core()
      reads this, accepted
    {
      && Owns()
      && Shown()
      && Lends()
      && Counted(loans, lent)
      && |loans| <= draining
      && Wiped()
      && (forall i :: 0 <= i < |retired| ==> retired[i].folds <= folds)
      && (ended ==> closed)
    }

    /** Retired frames are kept only for a stream that read before their fold. */
    ghost predicate Awaited()
      reads this`retired, this`lent
    {
      AwaitedBy(retired, lent.Keys)
    }

    ghost predicate Valid()
      reads this, accepted
    {
      Core() && Emptied() && Awaited()
    }

    constructor ()
      ensures Valid() && fresh(accepted) && accepted == {} && loans == map[]
      ensures View() == NewLog(RUN_LOG_BUDGET) && !ended && draining == 0 && !held
    {
      base, checkpoint, frames, bytes, budget := 0, [], [], 0, RUN_LOG_BUDGET;
      closed, ended, draining, held, folds := false, false, 0, false, 0;
      lent, retired, accepted, wiped, loans := map[], [], {}, {}, map[];
      shownCheckpoint, shownFrames := [], [];
      new;
      assert Datas(checkpoint) == [] && Deep(checkpoint) == [];
    }

    /** Appends one frame, which the log owns from here. */
    method Grow(frame: Buffer, kind: Kind, key: Key) returns (full: bool)
      requires Valid() && frame !in accepted
      modifies this`frames, this`shownFrames, this`bytes, this`accepted
      ensures Valid()
      ensures View() == Appended(old(View()), Entry(frame[..], kind, key), frame.Length)
      ensures full == (View().bytes > View().budget) && View().bytes == old(View()).bytes + (if closed then 0 else frame.Length)
      ensures accepted == old(accepted) + (if closed then {} else {frame})
    {
      hide Valid, Core, Owns, Shown, Lends, Counted, Wiped, Emptied, Awaited;
      if !closed {
        ghost var e := Entry(frame, kind, key);
        frames, bytes := frames + [Entry(frame, kind, key)], bytes + frame.Length;
        accepted := accepted + {frame};
        shownFrames := shownFrames + [Entry(frame[..], kind, key)];
        GrowKeeps(e);
      }
      full := bytes > budget;
    }

    twostate lemma GrowKeeps(e: Entry<Buffer>)
      requires old(Valid()) && frames == old(frames) + [e] && checkpoint == old(checkpoint) && retired == old(retired)
      requires e.data !in old(accepted) && accepted == old(accepted) + {e.data} && wiped == old(wiped) && loans == old(loans)
      requires shownCheckpoint == old(shownCheckpoint) && shownFrames == old(shownFrames) + [Entry(e.data[..], e.kind, e.key)]
      requires folds == old(folds) && lent == old(lent) && !closed && !old(closed) && ended == old(ended)
      requires draining == old(draining) && forall b :: b in old(accepted) ==> b[..] == old(b[..])
      ensures Valid()
    {
      hide Owned, Shown, Lends, Counted, AwaitedBy;
      GrowReach();
      GrowOwns(e);
      GrowShown(e);
    }

    twostate lemma GrowShown(e: Entry<Buffer>)
      requires old(Shown()) && frames == old(frames) + [e] && checkpoint == old(checkpoint)
      requires accepted == old(accepted) + {e.data}
      requires shownCheckpoint == old(shownCheckpoint) && shownFrames == old(shownFrames) + [Entry(e.data[..], e.kind, e.key)]
      requires forall b :: b in old(accepted) ==> b[..] == old(b[..])
      ensures Shown()
    {}

    twostate lemma GrowOwns(e: Entry<Buffer>)
      requires e.data !in old(accepted) && accepted == old(accepted) + {e.data}
      requires frames == old(frames) + [e] && checkpoint == old(checkpoint) && retired == old(retired) && wiped == old(wiped)
      requires old(Owns())
      ensures Owns()
    {
      hide RetiredBag;
      BagOfConcat(old(frames), [e]);
      assert Datas([e]) == [e.data];
      assert multiset(accepted) == multiset(old(accepted)) + multiset{e.data};
    }

    /** What was in reach stays in reach, and intact, as frames are appended. */
    twostate lemma GrowReach()
      requires old(frames) <= frames && checkpoint == old(checkpoint) && retired == old(retired)
      requires old(accepted) <= accepted && loans == old(loans) && folds == old(folds)
      requires forall b :: b in old(accepted) ==> b[..] == old(b[..])
      requires old(Lends())
      ensures Lends()
    {
      forall id | id in loans ensures Intact(loans[id]) {
        assert old(Intact(loans[id]));
        forall i | 0 <= i < |loans[id].frames| ensures InReach(loans[id].frames[i], loans[id].folds) {
          var b := loans[id].frames[i];
          if b in old(Datas(frames)) {
            assert Datas(frames)[..|old(frames)|] == old(Datas(frames));
          }
        }
      }
    }

    method Attach()
      requires Valid()
      modifies this`draining
      ensures Valid() && draining == old(draining) + 1
    {
      hide Counted, Awaited, Lends, Owns, Wiped, Shown;
      draining := draining + 1;
    }

    /** Ends a stream's draining; it holds nothing it read. */
    method Detach()
      requires Valid() && |loans| < draining
      modifies this`draining, this`checkpoint, this`frames, this`shownCheckpoint, this`shownFrames, this`retired, this`wiped, accepted
      ensures Valid() && draining == old(draining) - 1 && accepted == old(accepted) && loans == old(loans)
      ensures ended && draining == 0 && !held ==> AllZeroed()
      ensures !(ended && draining == 0 && !held) ==> View() == old(View())
    {
      hide Counted, Awaited, Lends, Owns, Wiped, Shown;
      draining := draining - 1;
      Wipe();
    }

    method Hold()
      requires Valid()
      modifies this`held
      ensures Valid() && held
    {
      hide Counted, Awaited, Lends, Owns, Wiped, Shown;
      held := true;
    }

    method Release()
      requires Valid()
      modifies this`held, this`checkpoint, this`frames, this`shownCheckpoint, this`shownFrames, this`retired, this`wiped, accepted
      ensures Valid() && !held && accepted == old(accepted) && loans == old(loans)
      ensures ended && draining == 0 ==> AllZeroed()
      ensures !(ended && draining == 0) ==> View() == old(View())
    {
      hide Counted, Awaited, Lends, Owns, Wiped, Shown;
      held := false;
      Wipe();
    }

    /** Ends the log, once its run has left the registry. */
    method Close()
      requires Valid()
      modifies this`closed, this`ended, this`checkpoint, this`frames, this`shownCheckpoint, this`shownFrames, this`retired, this`wiped, accepted
      ensures Valid() && closed && ended && accepted == old(accepted) && loans == old(loans)
      ensures draining == 0 && !held ==> AllZeroed()
      ensures !(draining == 0 && !held) ==> View() == old(View()).(closed := true)
    {
      hide Counted, Awaited, Lends, Owns, Wiped, Shown;
      closed := true;
      ended := true;
      Wipe();
    }

    ghost predicate AllZeroed()
      reads this`accepted, accepted
    {
      forall b :: b in accepted ==> Zeroed(b)
    }

    /** Whenever the log has ended and nothing drains or holds it, every byte it was ever given is zero. */
    lemma EndedLogIsZeroed()
      requires Valid() && ended && draining == 0 && !held
      ensures AllZeroed()
    {
      hide Lends, Counted, AwaitedBy, Shown, Zeroed;
      assert Datas(checkpoint) == [] && Datas(frames) == [] && RetiredBag(retired) == multiset{};
      forall b | b in accepted ensures Zeroed(b) {
        assert multiset(wiped)[b] == multiset(accepted)[b];
      }
    }

    /** Whatever folds came since, what a stream has read and not sent is in the log, unzeroed, as it was read. */
    lemma LoanStaysIntact(id: nat, i: nat)
      requires Valid() && id in loans && i < |loans[id].frames|
      ensures i < |loans[id].contents| && loans[id].frames[i][..] == loans[id].contents[i]
      ensures loans[id].frames[i] in accepted && loans[id].frames[i] !in wiped
    {
      hide Counted, AwaitedBy, Shown, Zeroed, Owned;
      assert Intact(loans[id]);
      assert InReach(loans[id].frames[i], loans[id].folds);
      if loans[id].frames[i] in wiped { OwnedOnce(loans[id].frames[i]); }
    }

    /** Zeroes and drops everything an ended log holds, once nothing drains or holds it. */
    method Wipe()
      requires Core() && Awaited()
      modifies this`checkpoint, this`frames, this`shownCheckpoint, this`shownFrames, this`retired, this`wiped, accepted
      ensures Valid()
      ensures ended && draining == 0 && !held ==> AllZeroed()
      ensures !(ended && draining == 0 && !held) ==> unchanged(this) && unchanged(accepted)
    {
      hide Owned, Shown, Wiped, Lends, Counted, AwaitedBy, AllZeroed;
      if !ended || draining > 0 || held { return; }
      ZeroAll();
      checkpoint, frames, retired := [], [], [];
      shownCheckpoint, shownFrames := [], [];
      wiped := accepted;
      WipeKeeps();
    }

    lemma WipeKeeps()
      requires checkpoint == [] && frames == [] && retired == [] && shownCheckpoint == [] && shownFrames == []
      requires wiped == accepted && AllZeroed() && Counted(loans, lent) && |loans| <= draining == 0 && ended && closed
      ensures Valid()
    {
      hide Counted, Zeroed;
      assert loans == map[];
      assert Datas(checkpoint) == [] && Datas(frames) == [] && Deep(checkpoint) == [] && Deep(frames) == [];
    }

    /** Zeroes every buffer the log still holds. */
    method ZeroAll()
      requires Owns() && Wiped()
      modifies accepted
      ensures AllZeroed()
    {
      OwnedAreAccepted();
      var live := Datas(checkpoint) + Datas(frames);
      AcceptedAreOwned(live);
      hide Zeroed, Owns;
      ClearAll(live);
      for i := 0 to |retired|
        invariant forall j :: 0 <= j < |live| ==> Zeroed(live[j])
        invariant forall k, j :: 0 <= k < i && 0 <= j < |retired[k].frames| ==> Zeroed(retired[k].frames[j])
        invariant forall b :: b in wiped ==> Zeroed(b)
      {
        ClearAll(retired[i].frames);
      }
    }

    lemma OwnedAreAccepted()
      requires Owns()
      ensures forall i :: 0 <= i < |checkpoint| ==> checkpoint[i].data in accepted
      ensures forall i :: 0 <= i < |frames| ==> frames[i].data in accepted
      ensures forall i :: 0 <= i < |retired| ==> Members(retired[i].frames) <= accepted
    {
      var all := multiset(Datas(checkpoint)) + multiset(Datas(frames)) + RetiredBag(retired) + multiset(wiped);
      forall i | 0 <= i < |checkpoint| ensures checkpoint[i].data in accepted {
        assert Datas(checkpoint)[i] in multiset(Datas(checkpoint));
        assert checkpoint[i].data in all;
      }
      forall i | 0 <= i < |frames| ensures frames[i].data in accepted {
        assert Datas(frames)[i] in multiset(Datas(frames));
        assert frames[i].data in all;
      }
      forall i, b | 0 <= i < |retired| && b in Members(retired[i].frames) ensures b in accepted {
        RetiredBagHolds(retired, i, b);
        assert b in all;
      }
    }

    lemma AcceptedAreOwned(live: seq<Buffer>)
      requires Owns() && live == Datas(checkpoint) + Datas(frames)
      ensures forall b :: b in accepted ==>
                b in live || b in wiped || exists k :: 0 <= k < |retired| && b in retired[k].frames
    {
      forall b | b in accepted
        ensures b in live || b in wiped || exists k :: 0 <= k < |retired| && b in retired[k].frames
      {
        assert multiset(accepted)[b] == 1;
        if RetiredBag(retired)[b] > 0 {
          RetiredBagFrom(retired, b);
        }
      }
    }

    // ---- Lending and reclaiming ----

    /** The fewest folds made before a stream still holding frames read them. */
    method Oldest() returns (oldest: nat)
      ensures oldest <= folds && (forall f :: f in lent ==> oldest <= f)
      ensures oldest == folds || oldest in lent
    {
      oldest := folds;
      var left := lent.Keys;
      while left != {}
        invariant left <= lent.Keys
        invariant oldest <= folds && (forall f :: f in lent && f !in left ==> oldest <= f)
        invariant oldest == folds || oldest in lent
        decreases left
      {
        var f :| f in left;
        left := left - {f};
        if f < oldest { oldest := f; }
      }
    }

    /** A buffer is wiped or held somewhere, never both. */
    lemma OwnedOnce(b: Buffer)
      requires Owns() && b in wiped
      ensures b !in Datas(checkpoint) && b !in Datas(frames)
      ensures forall i :: 0 <= i < |retired| ==> b !in retired[i].frames
    {
      assert multiset(accepted)[b] <= 1;
      assert multiset(wiped)[b] == 1;
      forall i | 0 <= i < |retired| ensures b !in retired[i].frames {
        if b in retired[i].frames { RetiredBagHolds(retired, i, b); }
      }
    }

    /** Wipes the retired frames no stream holds. */
    method Reclaim()
      requires Core() && Emptied()
      modifies this`retired, this`wiped, accepted
      ensures Valid() && View() == old(View())
    {
      hide Valid, Core, Owns, Owned, Shown, Lends, Intact, Counted, Wiped, Emptied, Awaited, AwaitedBy, Sifted, Deep, Contents, RetiredBag;
      CoreParts();
      var oldest := Oldest();
      FreeUpTo(oldest);
      ReclaimKeeps(oldest);
    }

    lemma CoreParts()
      requires Core()
      ensures Owns() && Wiped() && Counted(loans, lent) && |loans| <= draining && (ended ==> closed)
    {}

    twostate lemma ReclaimKeeps(oldest: nat)
      requires old(Core() && Emptied()) && Wiped() && Owns() && Sifted(old(retired), retired, oldest)
      requires checkpoint == old(checkpoint) && frames == old(frames) && accepted == old(accepted) && loans == old(loans)
      requires shownCheckpoint == old(shownCheckpoint) && shownFrames == old(shownFrames) && lent == old(lent)
      requires closed == old(closed) && ended == old(ended) && draining == old(draining) && held == old(held)
      requires folds == old(folds) && oldest <= folds && (oldest == folds || oldest in lent) && forall f :: f in lent ==> oldest <= f
      requires forall b :: b in accepted && b !in wiped ==> b[..] == old(b[..])
      ensures Valid()
    {
      hide Counted, Owned, Lends, Shown, Wiped, HasBefore;
      KeepsLoans(oldest);
      KeepsShown();
      forall k | 0 <= k < |retired| ensures retired[k].folds <= folds && HasBefore(lent.Keys, retired[k].folds) {
        assert retired[k] in old(retired);
        BeforeThem(lent.Keys, oldest, retired[k].folds);
      }
      if |retired| > 0 { assert retired[0] in old(retired); }
    }

    /** Zeroes the frames retired by a number of folds, and keeps the others. */
    method FreeUpTo(oldest: nat)
      requires Owns() && Wiped()
      modifies this`retired, this`wiped, accepted
      ensures Owns() && Wiped()
      ensures forall b :: b in accepted && b !in wiped ==> b[..] == old(b[..])
      ensures Sifted(old(retired), retired, oldest)
    {
      OwnedAreAccepted();
      hide Owned;
      ghost var freed;
      var kept;
      kept, freed := FreeRetired(retired, oldest, accepted);
      FreedOnce(kept, freed);
      wiped := wiped + Members(freed);
      retired := kept;
    }

    lemma FreedOnce(kept: seq<Retired>, freed: seq<Buffer>)
      requires Owns() && RetiredBag(kept) + multiset(freed) == RetiredBag(retired)
      ensures Owned(checkpoint, frames, kept, wiped + Members(freed), accepted)
    {
      hide RetiredBag;
      forall b ensures multiset(wiped)[b] + multiset(freed)[b] <= 1 {
        assert multiset(accepted)[b] <= 1;
        assert (RetiredBag(kept) + multiset(freed))[b] == RetiredBag(retired)[b];
      }
      BagOfMembers(freed);
      forall b | b in wiped ensures b !in Members(freed) {
        assert multiset(Members(freed))[b] == multiset(freed)[b];
      }
      assert multiset(wiped + Members(freed)) == multiset(wiped) + multiset(freed);
    }

    /**
     Folds the checkpoint and the frames into a new checkpoint. What it leaves out is
     retired, and zeroed when the last loan that reaches it is returned.
     */
    method Fold(merge: seq<Bytes> -> Bytes, activity: Key -> Option<Bytes>)
      requires Valid()
      modifies this`checkpoint, this`frames, this`shownCheckpoint, this`shownFrames, this`base, this`bytes, this`folds
      modifies this`retired, this`accepted, this`wiped, accepted
      ensures Valid() && View() == FoldedLog(old(View()), ByteOps(merge, activity))
      ensures old(accepted) <= accepted && fresh(accepted - old(accepted)) && loans == old(loans)
    {
      hide Valid, Core, Owns, Owned, Shown, Wiped, Lends, Emptied, Awaited, AwaitedBy, Counted, Folded;
      if closed { return; }
      FoldFrames(merge, activity);
      Reclaim();
    }

    method FoldFrames(merge: seq<Bytes> -> Bytes, activity: Key -> Option<Bytes>)
      requires Valid() && !closed
      modifies this`checkpoint, this`frames, this`shownCheckpoint, this`shownFrames, this`base, this`bytes, this`folds
      modifies this`retired, this`accepted
      ensures Core() && Emptied() && View() == FoldedLog(old(View()), ByteOps(merge, activity))
      ensures old(accepted) <= accepted && fresh(accepted - old(accepted))
    {
      hide Valid, Core, Shown, Emptied, Folded;
      OldShown();
      ghost var made, shown;
      var entries, dropped;
      entries, dropped, made, shown := Checkpointed(checkpoint + frames, merge, activity);
      Install(entries, dropped, made, shown);
    }

    /** Puts a checkpoint in the place of every frame, and retires the frames it drops. */
    method Install(entries: seq<Entry<Buffer>>, dropped: seq<Buffer>, ghost made: set<Buffer>, ghost shown: seq<Entry<Bytes>>)
      requires Valid() && !closed && made !! accepted && |entries| == |shown|
      requires forall i :: 0 <= i < |entries| ==> shown[i] == Entry(entries[i].data[..], entries[i].kind, entries[i].key)
      requires multiset(Datas(entries)) + multiset(dropped) == multiset(Datas(checkpoint + frames)) + multiset(made)
      modifies this`checkpoint, this`frames, this`shownCheckpoint, this`shownFrames, this`base, this`bytes, this`folds
      modifies this`retired, this`accepted
      ensures Core() && Emptied() && accepted == old(accepted) + made
      ensures View() == old(View()).(checkpoint := shown, base := old(base) + |old(frames)|, frames := [], bytes := 0, folds := old(folds) + 1)
    {
      hide Core, Counted, Emptied;
      CoreParts();
      SetFrames(entries, dropped, made, shown);
      FoldCore(made);
    }

    method SetFrames(entries: seq<Entry<Buffer>>, dropped: seq<Buffer>, ghost made: set<Buffer>, ghost shown: seq<Entry<Bytes>>)
      modifies this`checkpoint, this`frames, this`shownCheckpoint, this`shownFrames, this`base, this`bytes, this`folds
      modifies this`retired, this`accepted
      ensures folds == old(folds) + 1 && retired == old(retired) + [Retired(folds, dropped)]
      ensures checkpoint == entries && base == old(base) + |old(frames)| && frames == [] && bytes == 0
      ensures accepted == old(accepted) + made && shownCheckpoint == shown && shownFrames == []
    {
      folds := folds + 1;
      checkpoint, base, frames, bytes := entries, base + |frames|, [], 0;
      retired := retired + [Retired(folds, dropped)];
      accepted := accepted + made;
      shownCheckpoint, shownFrames := shown, [];
    }

    lemma OldShown()
      requires Valid()
      ensures Deep(checkpoint + frames) == shownCheckpoint + shownFrames && |frames| == |shownFrames|
    {}

    /** A fold keeps what the log owns, lends and shows. */
    twostate lemma FoldCore(new made: set<Buffer>)
      requires old(Valid()) && !ended && Counted(loans, lent) && |loans| <= draining && wiped == old(wiped) && loans == old(loans)
      requires made !! old(accepted) && accepted == old(accepted) + made && folds == old(folds) + 1 && frames == []
      requires |checkpoint| == |shownCheckpoint| && shownFrames == [] && |retired| == |old(retired)| + 1
      requires forall i :: 0 <= i < |checkpoint| ==> shownCheckpoint[i] == Entry(checkpoint[i].data[..], checkpoint[i].kind, checkpoint[i].key)
      requires retired == old(retired) + [Retired(folds, retired[|old(retired)|].frames)]
      requires multiset(Datas(checkpoint)) + multiset(retired[|old(retired)|].frames) == multiset(Datas(old(checkpoint + frames))) + multiset(made)
      requires forall b :: b in old(accepted) ==> b[..] == old(b[..])
      ensures Core() && Emptied()
    {
      hide Owned, Shown, Lends, Counted, AwaitedBy;
      assert shownCheckpoint == Deep(checkpoint);
      FoldOwned(old(checkpoint), old(frames), old(retired), old(wiped), old(accepted), checkpoint, retired[|old(retired)|], made);
      FoldLends();
      FoldShown();
    }

    twostate lemma FoldShown()
      requires old(Shown()) && Owns() && frames == [] && shownCheckpoint == Deep(checkpoint) && shownFrames == []
      ensures Shown()
    {
      OwnedAreAccepted();
      assert Deep(frames) == [];
    }

    /** A fold leaves what streams hold in reach and intact. */
    twostate lemma FoldLends()
      requires old(Lends()) && loans == old(loans) && old(accepted) <= accepted && folds == old(folds) + 1 && frames == []
      requires |retired| == |old(retired)| + 1 && retired == old(retired) + [retired[|old(retired)|]]
      requires retired[|old(retired)|].folds == folds
      requires multiset(Datas(old(checkpoint) + old(frames))) <= multiset(Datas(checkpoint)) + multiset(retired[|old(retired)|].frames)
      requires forall b :: b in old(accepted) ==> b[..] == old(b[..])
      ensures Lends()
    {
      hide Reach;
      forall id | id in loans ensures Intact(loans[id]) {
        var loan := loans[id];
        assert old(Intact(loan));
        forall i | 0 <= i < |loan.frames| ensures InReach(loan.frames[i], loan.folds) {
          assert old(InReach(loan.frames[i], loan.folds));
          FoldReaches(old(checkpoint), old(frames), old(retired), checkpoint, retired[|old(retired)|], loan.frames[i], loan.folds);
        }
      }
    }

    /** What a follower at a cursor is sent next, which stays intact until its done. */
    method Read(from: nat) returns (behind: seq<Buffer>, ahead: seq<Buffer>, first: nat, over: bool, folded: nat, ghost id: nat)
      requires Valid() && |loans| < draining
      modifies this`lent, this`loans
      ensures Valid() && over == closed && folded == folds
      ensures Contents(behind) == RunLog.Read(View(), from).checkpoint
      ensures Contents(ahead) == RunLog.Read(View(), from).frames && first == RunLog.Read(View(), from).first
      ensures id !in old(loans) && loans == old(loans)[id := Loan(folds, behind + ahead, Contents(behind + ahead))]
    {
      hide Valid, Intact, RunLog.Read;
      behind, first, over := [], from, closed;
      if from < base {
        behind, first := Datas(checkpoint), base;
      }
      ahead := Datas(frames[Min(first - base, |frames|)..]);
      folded := folds;
      ReadReach(behind, ahead, from);
      ReadShows(behind, ahead, from);
      id := Lend(Loan(folds, behind + ahead, Contents(behind + ahead)));
    }

    /** Counts what a stream holds by the folds made before it read. */
    method Lend(ghost loan: Loan) returns (ghost id: nat)
      requires Valid() && |loans| < draining && Intact(loan) && loan.folds == folds
      modifies this`lent, this`loans
      ensures Valid() && id !in old(loans) && loans == old(loans)[id := loan]
    {
      hide Owned, Shown, Lends, Wiped, Intact, Emptied, AwaitedBy, Counted;
      id := Unused(loans.Keys);
      var count := if folds in lent then lent[folds] else 0;
      LendCounts(loans, lent, id, loan);
      LendSize(loans, id, loan);
      AwaitedByMore(retired, lent.Keys, lent[folds := count + 1].Keys);
      lent := lent[folds := count + 1];
      loans := loans[id := loan];
      LendsMore(id);
    }

    /** One more loan, of what is in reach, leaves every loan intact. */
    twostate lemma LendsMore(id: nat)
      requires old(Lends()) && checkpoint == old(checkpoint) && frames == old(frames) && retired == old(retired)
      requires folds == old(folds) && accepted == old(accepted) && id in loans && loans == old(loans)[id := loans[id]]
      requires loans[id].folds == folds && Intact(loans[id]) && forall b :: b in accepted ==> b[..] == old(b[..])
      ensures Lends()
    {
      hide Reach;
      forall x | x in loans ensures Intact(loans[x]) {
        if x != id { assert old(Intact(loans[x])); }
      }
    }

    lemma ReadReach(behind: seq<Buffer>, ahead: seq<Buffer>, from: nat)
      requires Valid()
      requires behind == (if from < base then Datas(checkpoint) else [])
      requires ahead == Datas(frames[Min((if from < base then base else from) - base, |frames|)..])
      ensures Intact(Loan(folds, behind + ahead, Contents(behind + ahead)))
    {
      hide Owned, Wiped, Lends, Counted, AwaitedBy, Deep;
      var k := Min((if from < base then base else from) - base, |frames|);
      var all := behind + ahead;
      forall i | 0 <= i < |all| ensures all[i] in accepted && InReach(all[i], folds) {
        if i < |behind| {
          assert all[i] == checkpoint[i].data == Datas(checkpoint)[i];
        } else {
          assert all[i] == frames[k + (i - |behind|)].data == Datas(frames)[k + (i - |behind|)];
        }
      }
    }

    lemma ReadShows(behind: seq<Buffer>, ahead: seq<Buffer>, from: nat)
      requires Valid()
      requires behind == (if from < base then Datas(checkpoint) else [])
      requires ahead == Datas(frames[Min((if from < base then base else from) - base, |frames|)..])
      ensures Contents(behind) == RunLog.Read(View(), from).checkpoint
      ensures Contents(ahead) == RunLog.Read(View(), from).frames
      ensures RunLog.Read(View(), from).first == (if from < base then base else from)
    {
      hide Owned, Wiped, Lends, Counted, AwaitedBy;
    }

    /** A stream has sent what a reading gave it. */
    method Done(folded: nat, ghost id: nat)
      requires Valid() && id in loans && loans[id].folds == folded
      modifies this`lent, this`loans, this`retired, this`wiped, accepted
      ensures Valid() && View() == old(View()) && loans == old(loans) - {id}
    {
      hide Valid, Core, Owns, Shown, Lends, Counted, Wiped, Emptied, Awaited;
      CoreOfValid();
      ReturnCounts(loans, lent, id);
      if lent[folded] == 1 {
        lent := lent - {folded};
      } else {
        lent := lent[folded := lent[folded] - 1];
      }
      loans := loans - {id};
      DoneCore(id);
      Reclaim();
    }

    lemma CoreOfValid()
      requires Valid()
      ensures Core() && Emptied() && Counted(loans, lent)
    {
      hide Counted, Owned, Shown, Wiped, Lends, Emptied, AwaitedBy;
    }

    twostate lemma DoneCore(id: nat)
      requires old(Valid()) && id in old(loans) && loans == old(loans) - {id} && Counted(loans, lent)
      requires checkpoint == old(checkpoint) && frames == old(frames) && retired == old(retired) && accepted == old(accepted)
      requires wiped == old(wiped) && shownCheckpoint == old(shownCheckpoint) && shownFrames == old(shownFrames)
      requires closed == old(closed) && ended == old(ended) && draining == old(draining) && held == old(held) && folds == old(folds)
      requires forall b :: b in accepted ==> b[..] == old(b[..])
      ensures Core() && Emptied()
    {
      hide Owned, Reach, Counted;
      assert loans.Keys == old(loans).Keys - {id};
      forall x | x in loans ensures Intact(loans[x]) { assert old(Intact(loans[x])); }
    }

    method SentCursor() returns (cursor: nat)
      requires Valid()
      ensures cursor == Sent(View())
    {
      cursor := base + |frames|;
    }

    /** What streams hold outlives a reclaim up to the oldest of them. */
    twostate lemma KeepsLoans(oldest: nat)
      requires old(Lends()) && Owns() && Counted(loans, lent) && forall f :: f in lent ==> oldest <= f
      requires checkpoint == old(checkpoint) && frames == old(frames) && loans == old(loans)
      requires folds == old(folds) && accepted == old(accepted)
      requires forall b :: b in accepted && b !in wiped ==> b[..] == old(b[..])
      requires Sifted(old(retired), retired, oldest)
      ensures Lends()
    {
      forall id | id in loans ensures Intact(loans[id]) {
        var loan := loans[id];
        assert old(Intact(loan));
        assert oldest <= loan.folds;
        forall i | 0 <= i < |loan.frames|
          ensures InReach(loan.frames[i], loan.folds) && loan.frames[i] !in wiped
        {
          assert old(InReach(loan.frames[i], loan.folds));
          if exists j :: 0 <= j < |old(retired)| && old(retired)[j].folds > loan.folds && loan.frames[i] in old(retired)[j].frames {
            var j :| 0 <= j < |old(retired)| && old(retired)[j].folds > loan.folds && loan.frames[i] in old(retired)[j].frames;
            var k :| 0 <= k < |retired| && retired[k] == old(retired)[j];
          }
          if loan.frames[i] in wiped { OwnedOnce(loan.frames[i]); }
        }
      }
    }

    twostate lemma KeepsShown()
      requires old(Shown()) && Owns() && checkpoint == old(checkpoint) && frames == old(frames) && accepted == old(accepted)
      requires shownCheckpoint == old(shownCheckpoint) && shownFrames == old(shownFrames)
      requires forall b :: b in accepted && b !in wiped ==> b[..] == old(b[..])
      ensures Shown()
    {
      OwnedAreAccepted();
      forall i | 0 <= i < |checkpoint| ensures checkpoint[i].data[..] == old(checkpoint[i].data[..]) {
        assert Datas(checkpoint)[i] == checkpoint[i].data;
        if checkpoint[i].data in wiped { OwnedOnce(checkpoint[i].data); }
      }
      forall i | 0 <= i < |frames| ensures frames[i].data[..] == old(frames[i].data[..]) {
        assert Datas(frames)[i] == frames[i].data;
        if frames[i].data in wiped { OwnedOnce(frames[i].data); }
      }
    }
  }

  lemma RetiredNext(rs: seq<Retired>, kept: seq<Retired>, freed: seq<Buffer>, i: nat)
    requires i < |rs| && RetiredBag(kept) + multiset(freed) == RetiredBag(rs[..i])
    ensures RetiredBag(kept + [rs[i]]) + multiset(freed) == RetiredBag(rs[..i + 1])
    ensures RetiredBag(kept) + multiset(freed + rs[i].frames) == RetiredBag(rs[..i + 1])
  {
    hide RetiredBag;
    assert rs[..i + 1] == rs[..i] + [rs[i]];
    RetiredBagGrows(rs[..i], rs[i]);
    RetiredBagGrows(kept, rs[i]);
  }

  /** Those retired after a number of folds, and no others. */
  ghost predicate Sifted(rs: seq<Retired>, kept: seq<Retired>, oldest: nat) {
    && (forall j :: 0 <= j < |rs| && rs[j].folds > oldest ==> rs[j] in kept)
    && (forall k :: 0 <= k < |kept| ==> kept[k].folds > oldest && kept[k] in rs)
  }

  lemma SiftNext(rs: seq<Retired>, kept: seq<Retired>, oldest: nat, i: nat)
    requires i < |rs| && Sifted(rs[..i], kept, oldest)
    ensures Sifted(rs[..i + 1], if rs[i].folds > oldest then kept + [rs[i]] else kept, oldest)
  {
    assert rs[..i + 1] == rs[..i] + [rs[i]];
  }

  lemma NoneRetired(rs: seq<Retired>, oldest: nat)
    ensures RetiredBag([]) == RetiredBag(rs[..0]) == multiset{} && Members([]) == {} && Sifted(rs[..0], [], oldest)
  {}

  lemma {:induction false} RetiredBagFrom(rs: seq<Retired>, b: Buffer)
    requires RetiredBag(rs)[b] > 0
    ensures exists k :: 0 <= k < |rs| && b in rs[k].frames
  {
    if b in rs[|rs| - 1].frames {
    } else {
      RetiredBagFrom(rs[..|rs| - 1], b);
      var k :| 0 <= k < |rs| - 1 && b in rs[..|rs| - 1][k].frames;
      assert b in rs[k].frames;
    }
  }
}
