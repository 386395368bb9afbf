/**
 How a caller's search index takes their chat writes (internal/search/stored.go):
 an index is a map from a chat to its entry, and an update is what one write, and
 the earlier writes of its chat it stands for, change in it.
 */
module SearchIndex {
  import opened Options

  type Id = nat
  datatype ETag = ETag(text: nat, generation: Option<int>)  // generation when it reads as the per-row counter

  /** A write of a chat, or its removal, on its way into the index. */
  datatype Update = Update(id: Id, removed: bool, etag: ETag, at: int, revision: int, replaced: seq<int>)

  datatype Entry = Entry(etag: ETag, revision: int, at: int)

  type Index = map<Id, Entry>

  datatype Outcome = Missed | Taken | Superseded

  /** What a read of a chat's stored revision says of an update. */
  datatype Snapshot = Current | Stale | Deleted | Failed

  datatype Merge = Merge(ix: Index, mutated: bool, outcome: Outcome)

  /** Every revision counted with an update: its own, if it has one, and those it replaced. */
  function Revisions(u: Update): seq<int> {
    if u.revision <= 0 then u.replaced else [u.revision] + u.replaced
  }

  predicate LiveSince(revision: int, source: int, inHand: set<int>) {
    revision > 0 && forall later :: revision < later <= source ==> later in inHand
  }

  method IsLiveSince(revision: int, source: int, inHand: set<int>) returns (live: bool)
    ensures live == LiveSince(revision, source, inHand)
  {
    if revision <= 0 { return false; }
    var later := revision + 1;
    while later <= source
      invariant later >= revision + 1
      invariant forall v :: revision < v < later && v <= source ==> v in inHand
      decreases source - later
    {
      if later !in inHand { return false; }
      later := later + 1;
    }
    return true;
  }

  /** An entry that outdates a write: by source revision, else by etag generation, else by time. */
  predicate EntrySupersedes(e: Entry, etag: ETag, revision: int, at: int) {
    if e.revision > 0 && revision > 0 then e.revision > revision
    else if e.etag.generation.Some? && etag.generation.Some? then e.etag.generation.value > etag.generation.value
    else e.at > at
  }

  /** Takes a chat's write: live says it is known to be the chat's latest; fits is whether the index has room for it. */
  function StoreEntry(ix: Index, u: Update, live: bool, snapshot: Snapshot, fits: bool): Merge {
    if !live && snapshot.Failed? then Merge(ix, false, Missed)
    else if !live && snapshot.Stale? then Merge(ix, false, Superseded)
    else if !live && snapshot.Deleted? then Merge(ix - {u.id}, u.id in ix, Superseded)
    else if u.id in ix && (EntrySupersedes(ix[u.id], u.etag, u.revision, u.at) || (ix[u.id].revision == u.revision && ix[u.id].etag == u.etag))
    then Merge(ix, false, Taken)
    else if !fits then Merge(ix, false, Missed)
    else Merge(ix[u.id := Entry(u.etag, u.revision, u.at)], true, Taken)
  }

  /** Takes a chat's removal: whole is whether the index was loaded, and remade whether the chat is there again. */
  function RemoveEntry(ix: Index, whole: bool, u: Update, remade: bool): Merge {
    if remade then Merge(ix, false, Superseded)
    else if u.id !in ix && whole then Merge(ix, false, Taken)
    else if u.id in ix && u.revision > 0 && ix[u.id].revision > u.revision then Merge(ix, false, Taken)
    else Merge(ix - {u.id}, true, Taken)
  }

  /** The index being changed by a batch, and what became of the updates so far. */
  datatype Work = Work(ix: Index, changed: bool, took: set<int>, behind: map<Id, seq<int>>)

  function ToSet(vs: seq<int>): set<int> { set v | v in vs }

  function Recorded(w: Work, u: Update, m: Merge): Work {
    Work(m.ix,
         w.changed || m.mutated,
         if m.outcome.Taken? then w.took + ToSet(Revisions(u)) else w.took,
         if m.outcome.Superseded? && |Revisions(u)| > 0 then w.behind[u.id := Revisions(u)] else w.behind)
  }

  /** What the environment answers about one update. */
  datatype Answer = Answer(snapshot: Snapshot, fits: bool, remade: bool)

  function MergeOne(w: Work, u: Update, whole: bool, source: int, inHand: set<int>, a: Answer): Work {
    Recorded(w, u,
             if u.removed then RemoveEntry(w.ix, whole, u, a.remade)
             else StoreEntry(w.ix, u, LiveSince(u.revision, source, inHand), a.snapshot, a.fits))
  }

  /** A whole batch, its updates taken in turn. */
  function MergeAll(w: Work, us: seq<Update>, whole: bool, source: int, inHand: set<int>, answers: seq<Answer>): Work
    requires |answers| == |us|
  {
    if us == [] then w
    else
      var n := |us| - 1;
      MergeOne(MergeAll(w, us[..n], whole, source, inHand, answers[..n]), us[n], whole, source, inHand, answers[n])
  }

  function InHand(us: seq<Update>): set<int> {
    set i, v | 0 <= i < |us| && v in Revisions(us[i]) :: v
  }

  /** covered is the end of the unbroken row of taken revisions that follows published. */
  predicate IsCovered(published: int, took: set<int>, covered: int) {
    && published <= covered && covered + 1 !in took
    && forall v :: published < v <= covered ==> v in took
  }

  lemma CoveredIsUnique(published: int, took: set<int>, a: int, b: int)
    requires IsCovered(published, took, a) && IsCovered(published, took, b)
    ensures a == b
  {
    if a < b { CoveredTook(published, took, b, a + 1); }
    if b < a { CoveredTook(published, took, a, b + 1); }
  }

  lemma CoveredTook(published: int, took: set<int>, covered: int, v: int)
    requires IsCovered(published, took, covered) && published < v <= covered
    ensures v in took
  {}

  method CoverThrough(published: int, took: set<int>) returns (covered: int)
    ensures IsCovered(published, took, covered)
  {
    covered := published;
    ghost var left := took;
    while covered + 1 in took
      invariant published <= covered
      invariant forall v :: published < v <= covered ==> v in took
      invariant left <= took && forall v :: v in took && v > covered ==> v in left
      decreases left
    {
      covered := covered + 1;
      left := left - {covered};
    }
  }

  /** The loop of apply over a batch, an index changed in place as it goes. */
  method MergeBatch(ix0: Index, us: seq<Update>, whole: bool, source: int, answers: seq<Answer>) returns (w: Work)
    requires |answers| == |us|
    ensures w == MergeAll(Work(ix0, false, {}, map[]), us, whole, source, InHand(us), answers)
  {
    ghost var start := Work(ix0, false, {}, map[]);
    var inHand := CollectInHand(us);
    w := Work(ix0, false, {}, map[]);
    for i := 0 to |us|
      invariant w == MergeAll(start, us[..i], whole, source, inHand, answers[..i])
    {
      assert us[..i + 1][..i] == us[..i] && answers[..i + 1][..i] == answers[..i];
      var u := us[i];
      var m;
      if u.removed {
        m := RemoveEntry(w.ix, whole, u, answers[i].remade);
      } else {
        var live := IsLiveSince(u.revision, source, inHand);
        m := StoreEntry(w.ix, u, live, answers[i].snapshot, answers[i].fits);
      }
      w := Recorded(w, u, m);
    }
    assert us[..|us|] == us && answers[..|us|] == answers;
  }

  method CollectInHand(us: seq<Update>) returns (inHand: set<int>)
    ensures inHand == InHand(us)
  {
    inHand := {};
    for i := 0 to |us|
      invariant inHand == InHand(us[..i])
    {
      inHand := inHand + ToSet(Revisions(us[i]));
      InHandMore(us, i);
    }
    assert us[..|us|] == us;
  }

  lemma InHandMore(us: seq<Update>, i: nat)
    requires i < |us|
    ensures InHand(us[..i + 1]) == InHand(us[..i]) + ToSet(Revisions(us[i]))
  {
    var a, b := us[..i + 1], us[..i];
    forall v ensures v in InHand(a) <==> v in InHand(b) || v in Revisions(us[i]) {
      if v in InHand(a) {
        var j :| 0 <= j < |a| && v in Revisions(a[j]);
        if j < i { assert b[j] == a[j]; }
      }
      if v in InHand(b) {
        var j :| 0 <= j < |b| && v in Revisions(b[j]);
        assert a[j] == b[j];
      }
      if v in Revisions(us[i]) { assert a[i] == us[i]; }
    }
  }
}
