/**
 What an index is exact about. The control plane counts a caller's chat writes:
 the write at revision v is entry v - 1 of a log.
 */
module SearchCoverage {
  import opened SearchIndex

  datatype Write = Write(id: Id, removed: bool, etag: ETag)

  type Log = seq<Write>

  /** The revision of a chat's latest write, or 0. */
  function Latest(log: Log, id: Id): (v: nat)
    ensures v <= |log| && (v > 0 ==> log[v - 1].id == id)
  {
    if log == [] then 0
    else if log[|log| - 1].id == id then |log|
    else Latest(log[..|log| - 1], id)
  }

  lemma {:induction false} LatestIsLast(log: Log, id: Id, v: nat)
    requires Latest(log, id) < v <= |log|
    ensures log[v - 1].id != id
  {
    if v < |log| {
      LatestIsLast(log[..|log| - 1], id, v);
    }
  }

  lemma LatestAfter(log: Log, w: Write, id: Id)
    ensures Latest(log + [w], id) == if w.id == id then |log| + 1 else Latest(log, id)
  {
    assert (log + [w])[..|log|] == log;
  }

  /** A write of a chat is no later than its latest. */
  lemma LatestBounds(log: Log, id: Id, v: nat)
    requires 0 < v <= |log| && log[v - 1].id == id
    ensures v <= Latest(log, id)
  {
    if Latest(log, id) < v { LatestIsLast(log, id, v); }
  }

  /** No two writes of a chat leave it with one etag. */
  ghost predicate EtagsUnique(log: Log) {
    forall v, w :: 0 <= v < w < |log| && log[v].id == log[w].id && !log[v].removed && !log[w].removed ==> log[v].etag != log[w].etag
  }

  /** The index holds a chat exactly as its latest write left it. */
  ghost predicate Exact(log: Log, ix: Index, id: Id)
    requires Latest(log, id) > 0
  {
    var l := Latest(log, id);
    if log[l - 1].removed then id !in ix
    else id in ix && ix[id].etag == log[l - 1].etag && ix[id].revision >= l
  }

  /** The index is exact about every chat whose latest write is no later than p. */
  ghost predicate Good(log: Log, ix: Index, p: int) {
    forall id :: 0 < Latest(log, id) <= p ==> Exact(log, ix, id)
  }

  /** The write at v is of a chat. */
  ghost predicate IsOf(log: Log, v: int, id: Id) {
    0 < v <= |log| && log[v - 1].id == id
  }

  /** The write at v stored a chat with an etag, and is its last up to r. */
  ghost predicate StoredAt(log: Log, id: Id, etag: ETag, v: int, r: int) {
    && 0 < v <= |log| && log[v - 1] == Write(id, false, etag)
    && forall w :: v < w <= r ==> !IsOf(log, w, id)
  }

  /** An entry is from a real write of its chat, and from its latest as of the entry's revision. */
  ghost predicate EntryOk(log: Log, id: Id, e: Entry) {
    0 < e.revision <= |log| && exists v :: StoredAt(log, id, e.etag, v, e.revision)
  }

  ghost predicate EntriesOk(log: Log, ix: Index) {
    forall id :: id in ix ==> EntryOk(log, id, ix[id])
  }

  /**
   An update is its chat's write at its revision, and stands only for earlier writes of
   that chat; or it is the removal of a chat found gone, which has no revision.
   */
  ghost predicate UpdateOk(log: Log, u: Update) {
    if u.revision <= 0 then u.removed && u.replaced == []
    else
      && u.revision <= |log|
      && log[u.revision - 1].id == u.id && log[u.revision - 1].removed == u.removed
      && (!u.removed ==> log[u.revision - 1].etag == u.etag)
      && forall v :: v in u.replaced ==> 0 < v <= u.revision && log[v - 1].id == u.id
  }

  ghost predicate BatchOk(log: Log, us: seq<Update>) {
    && (forall i :: 0 <= i < |us| ==> UpdateOk(log, us[i]))
    && forall i, j :: 0 <= i < j < |us| ==> us[i].id != us[j].id
  }

  lemma RevisionsOk(log: Log, u: Update, v: int)
    requires UpdateOk(log, u) && v in Revisions(u)
    ensures 0 < v <= u.revision <= |log| && log[v - 1].id == u.id
  {}

  /** An update trusted as live is its chat's latest write the control plane had counted. */
  lemma LiveIsLatest(log: Log, us: seq<Update>, i: nat, source: int)
    requires BatchOk(log, us) && i < |us| && source <= |log| && LiveSince(us[i].revision, source, InHand(us))
    ensures forall v :: us[i].revision < v <= source ==> !IsOf(log, v, us[i].id)
  {
    forall v | us[i].revision < v <= source ensures !IsOf(log, v, us[i].id) {
      assert v in InHand(us);
      var j :| 0 <= j < |us| && v in Revisions(us[j]);
      RevisionsOk(log, us[j], v);
    }
  }

  // ---- What a read of the chat may answer ----

  ghost predicate Exists(log: Log, id: Id) {
    Latest(log, id) > 0 && !log[Latest(log, id) - 1].removed
  }

  ghost predicate SnapshotOk(log: Log, id: Id, etag: ETag, s: Snapshot) {
    match s
    case Current => Exists(log, id) && log[Latest(log, id) - 1].etag == etag
    case Stale => Exists(log, id) && log[Latest(log, id) - 1].etag != etag
    case Deleted => !Exists(log, id)
    case Failed => true
  }

  // ---- One update ----

  /** What holds of the index of a batch in the making, at the revision p it was published through. */
  ghost predicate WorkOk(log: Log, us: seq<Update>, i: nat, w: Work, p: int, fine: bool)
    requires i <= |us|
  {
    && EntriesOk(log, w.ix)
    && (fine ==> Good(log, w.ix, p))
    && (forall v :: v in w.took ==> exists j :: 0 <= j < i && v in Revisions(us[j]))
    && (forall id :: Latest(log, id) > 0 && Latest(log, id) in w.took ==> Exact(log, w.ix, id))
    && (forall id :: id in w.behind ==> exists j :: 0 <= j < i && us[j].id == id && w.behind[id] == Revisions(us[j]))
  }

  /** What a merge may have done to its update's entry. */
  ghost predicate MergeOk(log: Log, u: Update, before: Index, m: Merge, p: int) {
    && m.ix - {u.id} == before - {u.id}
    && (u.id in m.ix ==> EntryOk(log, u.id, m.ix[u.id]) || (u.id in before && m.ix[u.id] == before[u.id]))
    && (m.outcome.Taken? && 0 < Latest(log, u.id) == u.revision ==> Exact(log, m.ix, u.id))
    && (0 < Latest(log, u.id) <= p && Exact(log, before, u.id) ==> Exact(log, m.ix, u.id))
  }

  /** An entry at least as new as the chat's latest write is that write's. */
  lemma NewerIsLatest(log: Log, id: Id, e: Entry)
    requires EntryOk(log, id, e) && Latest(log, id) > 0 && e.revision >= Latest(log, id)
    ensures !log[Latest(log, id) - 1].removed && log[Latest(log, id) - 1].etag == e.etag
  {
    var v :| StoredAt(log, id, e.etag, v, e.revision);
    LatestBounds(log, id, v);
    assert IsOf(log, Latest(log, id), id);
  }

  lemma StoreOk(log: Log, us: seq<Update>, i: nat, before: Index, p: int, source: int, a: Answer)
    requires BatchOk(log, us) && i < |us| && !us[i].removed && EtagsUnique(log) && EntriesOk(log, before)
    requires p <= source <= |log| && SnapshotOk(log, us[i].id, us[i].etag, a.snapshot)
    ensures MergeOk(log, us[i], before, StoreEntry(before, us[i], LiveSince(us[i].revision, source, InHand(us)), a.snapshot, a.fits), p)
  {
    hide LiveSince, InHand, EtagsUnique, BatchOk;
    var u := us[i];
    var live := LiveSince(u.revision, source, InHand(us));
    assert UpdateOk(log, u) by { BatchHas(log, us, i); }
    LatestBounds(log, u.id, u.revision);
    if live || a.snapshot.Current? {
      StoredIsLatest(log, us, i, p, source, a.snapshot);
      assert Latest(log, u.id) <= p ==> Latest(log, u.id) == u.revision;
      StoreLive(log, u, before, live, a, p);
    }
  }

  lemma BatchHas(log: Log, us: seq<Update>, i: nat)
    requires BatchOk(log, us) && i < |us|
    ensures UpdateOk(log, us[i])
  {}

  lemma StoredIsLatest(log: Log, us: seq<Update>, i: nat, p: int, source: int, s: Snapshot)
    requires BatchOk(log, us) && i < |us| && !us[i].removed && EtagsUnique(log) && p <= source <= |log|
    requires LiveSince(us[i].revision, source, InHand(us)) || (s.Current? && SnapshotOk(log, us[i].id, us[i].etag, s))
    ensures Latest(log, us[i].id) <= p ==> Latest(log, us[i].id) == us[i].revision
  {
    hide LiveSince, InHand, BatchOk, Latest, EtagsUnique;
    var u, l := us[i], Latest(log, us[i].id);
    BatchHas(log, us, i);
    LatestBounds(log, u.id, u.revision);
    if LiveSince(u.revision, source, InHand(us)) {
      LiveIsLatest(log, us, i, source);
      assert l <= p ==> IsOf(log, l, u.id);
    } else {
      OneEtag(log, u.revision, l);
    }
  }

  lemma OneEtag(log: Log, v: int, w: int)
    requires EtagsUnique(log) && 0 < v <= |log| && 0 < w <= |log|
    requires log[v - 1].id == log[w - 1].id && log[v - 1].etag == log[w - 1].etag && !log[v - 1].removed && !log[w - 1].removed
    ensures v == w
  {}

  lemma StoreLive(log: Log, u: Update, before: Index, live: bool, a: Answer, p: int)
    requires UpdateOk(log, u) && !u.removed && EntriesOk(log, before) && (live || a.snapshot.Current?)
    requires Latest(log, u.id) >= u.revision && (Latest(log, u.id) <= p ==> Latest(log, u.id) == u.revision)
    ensures MergeOk(log, u, before, StoreEntry(before, u, live, a.snapshot, a.fits), p)
  {
    hide Latest;
    var m := StoreEntry(before, u, live, a.snapshot, a.fits);
    if u.id in before && Latest(log, u.id) == u.revision && before[u.id].revision >= u.revision {
      NewerIsLatest(log, u.id, before[u.id]);
    }
    if m.mutated {
      assert StoredAt(log, u.id, u.etag, u.revision, u.revision);
    }
  }

  /** What an unnumbered removal may not do: drop the entry of a chat the index is exact about. */
  ghost predicate Harmless(log: Log, u: Update, ix: Index, remade: bool, p: int) {
    u.removed && u.revision <= 0 ==> remade || u.id !in ix || Latest(log, u.id) > p
  }

  lemma RemoveOk(log: Log, u: Update, before: Index, whole: bool, remade: bool, p: int)
    requires UpdateOk(log, u) && u.removed && EntriesOk(log, before) && Harmless(log, u, before, remade, p)
    ensures MergeOk(log, u, before, RemoveEntry(before, whole, u, remade), p)
  {
    if u.revision > 0 {
      LatestBounds(log, u.id, u.revision);
      if u.id in before && before[u.id].revision > u.revision && Latest(log, u.id) == u.revision {
        NewerIsLatest(log, u.id, before[u.id]);
      }
    }
  }

  /**
   A removal without a revision keeps an index exact just when the chat was found made
   again, the index does not hold it, or its latest write is past what the index covers.
   */
  lemma UnnumberedKeeps(log: Log, u: Update, ix: Index, whole: bool, remade: bool, p: int)
    requires u.removed && u.revision <= 0 && EntriesOk(log, ix) && Good(log, ix, p)
    ensures Good(log, RemoveEntry(ix, whole, u, remade).ix, p) <==> Harmless(log, u, ix, remade, p)
  {
    hide Latest;
    var ix' := RemoveEntry(ix, whole, u, remade).ix;
    if Harmless(log, u, ix, remade, p) {
      forall id | 0 < Latest(log, id) <= p ensures Exact(log, ix', id) {
        assert Exact(log, ix, id);
        if id != u.id { SameEntry(log, ix, ix', u.id, id); }
      }
    } else {
      EntryIsWritten(log, u.id, ix[u.id]);
      assert Exact(log, ix, u.id) && !Exact(log, ix', u.id);
    }
  }

  lemma EntryIsWritten(log: Log, id: Id, e: Entry)
    requires EntryOk(log, id, e)
    ensures Latest(log, id) > 0
  {
    var v :| StoredAt(log, id, e.etag, v, e.revision);
    LatestBounds(log, id, v);
  }

  /** A chat still gone when the publication was read is not one its index holds, so its removal is harmless. */
  lemma GoneIsHarmless(log: Log, source: int, u: Update, ix: Index, remade: bool, p: int)
    requires 0 <= p <= source <= |log| && EntriesOk(log, ix) && Good(log, ix, p) && !Exists(log[..source], u.id)
    ensures Harmless(log, u, ix, remade, p)
  {
    if u.id in ix { EntryIsWritten(log, u.id, ix[u.id]); }
    if 0 < Latest(log, u.id) <= p {
      LatestBefore(log, source, u.id);
      assert Exact(log, ix, u.id);
    }
  }

  /** A latest write that early was the latest all along. */
  lemma {:induction false} LatestBefore(log: Log, n: int, id: Id)
    requires 0 <= n <= |log| && Latest(log, id) <= n
    ensures Latest(log[..n], id) == Latest(log, id)
  {
    if n == |log| {
      assert log[..n] == log;
    } else {
      var rest := log[..|log| - 1];
      LatestBefore(rest, n, id);
      assert rest[..n] == log[..n];
    }
  }

  /** Taking one update keeps the index exact about what it was, and about every latest write it has taken. */
  lemma MergeKeeps(log: Log, us: seq<Update>, i: nat, w: Work, whole: bool, source: int, a: Answer, p: int, fine: bool)
    requires BatchOk(log, us) && i < |us| && EtagsUnique(log) && WorkOk(log, us, i, w, p, fine)
    requires p <= source <= |log| && (!us[i].removed ==> SnapshotOk(log, us[i].id, us[i].etag, a.snapshot))
    requires fine ==> Harmless(log, us[i], w.ix, a.remade, p)
    ensures WorkOk(log, us, i + 1, MergeOne(w, us[i], whole, source, InHand(us), a), p, fine)
  {
    hide BatchOk, WorkOk, InHand, LiveSince, EtagsUnique, StoreEntry, RemoveEntry, MergeOk, SnapshotOk, Harmless;
    var u := us[i];
    var m := if u.removed then RemoveEntry(w.ix, whole, u, a.remade)
             else StoreEntry(w.ix, u, LiveSince(u.revision, source, InHand(us)), a.snapshot, a.fits);
    assert EntriesOk(log, w.ix) by { WorkEntries(log, us, i, w, p, fine); }
    BatchHas(log, us, i);
    var q := if fine || p < 0 then p else 0;
    if u.removed {
      if !fine { EarlyIsHarmless(log, u, w.ix, a.remade, q); }
      RemoveOk(log, u, w.ix, whole, a.remade, q);
    } else {
      StoreOk(log, us, i, w.ix, q, source, a);
    }
    WorkAt(log, us, i, w, p, q, fine);
    RecordedOk(log, us, i, w, m, q, fine);
    WorkAt(log, us, i + 1, Recorded(w, u, m), q, p, fine);
  }

  lemma EarlyIsHarmless(log: Log, u: Update, ix: Index, remade: bool, p: int)
    requires EntriesOk(log, ix) && p <= 0
    ensures Harmless(log, u, ix, remade, p)
  {
    if u.id in ix { EntryIsWritten(log, u.id, ix[u.id]); }
  }

  /** An index not held complete is none the less so at another revision. */
  lemma WorkAt(log: Log, us: seq<Update>, i: nat, w: Work, p: int, q: int, fine: bool)
    requires i <= |us| && WorkOk(log, us, i, w, p, fine) && (fine ==> p == q)
    ensures WorkOk(log, us, i, w, q, fine)
  {}

  lemma WorkLess(log: Log, us: seq<Update>, i: nat, w: Work, p: int, fine: bool, less: bool)
    requires i <= |us| && WorkOk(log, us, i, w, p, fine) && (less ==> fine)
    ensures WorkOk(log, us, i, w, p, less)
  {}

  lemma WorkEntries(log: Log, us: seq<Update>, i: nat, w: Work, p: int, fine: bool)
    requires i <= |us| && WorkOk(log, us, i, w, p, fine)
    ensures EntriesOk(log, w.ix)
  {}

  lemma RecordedOk(log: Log, us: seq<Update>, i: nat, w: Work, m: Merge, p: int, fine: bool)
    requires BatchOk(log, us) && i < |us| && WorkOk(log, us, i, w, p, fine) && MergeOk(log, us[i], w.ix, m, p)
    ensures WorkOk(log, us, i + 1, Recorded(w, us[i], m), p, fine)
  {
    hide BatchOk, EntryOk, Recorded, Latest;
    var u, w' := us[i], Recorded(w, us[i], m);
    assert w'.ix == m.ix by { RecordedIx(w, u, m); }
    forall id | id in w'.ix ensures EntryOk(log, id, w'.ix[id]) {
      if id != u.id { assert id in m.ix - {u.id}; }
    }
    if fine {
      forall id | 0 < Latest(log, id) <= p ensures Exact(log, w'.ix, id) {
        assert Exact(log, w.ix, id);
        if id != u.id { SameEntry(log, w.ix, m.ix, u.id, id); }
      }
    }
    RecordedTook(log, us, i, w, m, p, fine);
    RecordedBehind(us, i, w, m);
  }

  lemma RecordedIx(w: Work, u: Update, m: Merge)
    ensures Recorded(w, u, m).ix == m.ix
  {}

  lemma SameEntry(log: Log, a: Index, b: Index, at: Id, id: Id)
    requires b - {at} == a - {at} && id != at && Latest(log, id) > 0 && Exact(log, a, id)
    ensures Exact(log, b, id)
  {
    assert id in a <==> id in a - {at};
    assert id in b <==> id in b - {at};
    if id in a { assert a[id] == (a - {at})[id]; }
  }

  lemma RecordedTook(log: Log, us: seq<Update>, i: nat, w: Work, m: Merge, p: int, fine: bool)
    requires BatchOk(log, us) && i < |us| && WorkOk(log, us, i, w, p, fine) && MergeOk(log, us[i], w.ix, m, p)
    ensures var w' := Recorded(w, us[i], m);
            && (forall v :: v in w'.took ==> exists j :: 0 <= j < i + 1 && v in Revisions(us[j]))
            && (forall id :: Latest(log, id) > 0 && Latest(log, id) in w'.took ==> Exact(log, w'.ix, id))
  {
    hide Latest, Good, EntriesOk, EntryOk, Exact, Revisions;
    var u, w' := us[i], Recorded(w, us[i], m);
    forall v | v in w'.took ensures exists j :: 0 <= j < i + 1 && v in Revisions(us[j]) {
      if v in w.took {
        var j :| 0 <= j < i && v in Revisions(us[j]);
      }
    }
    forall id | Latest(log, id) > 0 && Latest(log, id) in w'.took ensures Exact(log, w'.ix, id) {
      TookOne(log, us, i, w, m, p, fine, id);
    }
  }

  lemma TookOne(log: Log, us: seq<Update>, i: nat, w: Work, m: Merge, p: int, fine: bool, id: Id)
    requires BatchOk(log, us) && i < |us| && WorkOk(log, us, i, w, p, fine) && MergeOk(log, us[i], w.ix, m, p)
    requires Latest(log, id) > 0 && Latest(log, id) in Recorded(w, us[i], m).took
    ensures Exact(log, m.ix, id)
  {
    hide Good, EntriesOk, EntryOk, Exact, Revisions;
    var u, l := us[i], Latest(log, id);
    if l in w.took {
      var j :| 0 <= j < i && l in Revisions(us[j]);
      RevisionsOk(log, us[j], l);
      SameEntry(log, w.ix, m.ix, u.id, id);
    } else {
      RevisionsOk(log, u, l);
      LatestBounds(log, id, u.revision);
    }
  }

  lemma RecordedBehind(us: seq<Update>, i: nat, w: Work, m: Merge)
    requires i < |us|
    requires forall id :: id in w.behind ==> exists j :: 0 <= j < i && us[j].id == id && w.behind[id] == Revisions(us[j])
    ensures var w' := Recorded(w, us[i], m);
            forall id :: id in w'.behind ==> exists j :: 0 <= j < i + 1 && us[j].id == id && w'.behind[id] == Revisions(us[j])
  {
    hide Revisions;
    var w' := Recorded(w, us[i], m);
    forall id | id in w'.behind ensures exists j :: 0 <= j < i + 1 && us[j].id == id && w'.behind[id] == Revisions(us[j]) {
      if id != us[i].id || w'.behind == w.behind {
        var j :| 0 <= j < i && us[j].id == id && w.behind[id] == Revisions(us[j]);
      }
    }
  }

  // ---- A publication ----

  /** What a batch leaves is exact through the revision its publication covers. */
  lemma CoveredIsGood(log: Log, us: seq<Update>, w: Work, p: int, covered: int)
    requires WorkOk(log, us, |us|, w, p, true) && IsCovered(p, w.took, covered)
    ensures Good(log, w.ix, covered)
  {
    hide Latest, Exact, EntriesOk;
  }

  // ---- More writes ----

  lemma EntryLater(log: Log, write: Write, id: Id, e: Entry)
    requires EntryOk(log, id, e)
    ensures EntryOk(log + [write], id, e)
  {
    var v :| StoredAt(log, id, e.etag, v, e.revision);
    forall w | v < w <= e.revision ensures !IsOf(log + [write], w, id) { assert !IsOf(log, w, id); }
    assert StoredAt(log + [write], id, e.etag, v, e.revision);
  }

  lemma EntriesLater(log: Log, write: Write, ix: Index)
    requires EntriesOk(log, ix)
    ensures EntriesOk(log + [write], ix)
  {
    hide EntryOk;
    forall id | id in ix ensures EntryOk(log + [write], id, ix[id]) { EntryLater(log, write, id, ix[id]); }
  }

  lemma ExactLater(log: Log, write: Write, ix: Index, id: Id)
    requires Latest(log, id) > 0 && Exact(log, ix, id) && write.id != id
    ensures Latest(log + [write], id) == Latest(log, id) && Exact(log + [write], ix, id)
  {
    LatestAfter(log, write, id);
  }

  /** A later write takes its chat out of what the index is exact about, and no other. */
  lemma GoodLater(log: Log, write: Write, ix: Index, p: int)
    requires Good(log, ix, p) && p <= |log|
    ensures Good(log + [write], ix, p)
  {
    hide Exact;
    forall id | 0 < Latest(log + [write], id) <= p ensures Exact(log + [write], ix, id) {
      LatestAfter(log, write, id);
      ExactLater(log, write, ix, id);
    }
  }

  lemma UpdateLater(log: Log, write: Write, u: Update)
    requires UpdateOk(log, u)
    ensures UpdateOk(log + [write], u)
  {}

  lemma BatchLater(log: Log, write: Write, us: seq<Update>)
    requires BatchOk(log, us)
    ensures BatchOk(log + [write], us)
  {
    hide UpdateOk;
    forall i | 0 <= i < |us| ensures UpdateOk(log + [write], us[i]) { UpdateLater(log, write, us[i]); }
  }

  lemma WorkLater(log: Log, write: Write, us: seq<Update>, i: nat, w: Work, p: int, fine: bool)
    requires BatchOk(log, us) && i <= |us| && p <= |log| && WorkOk(log, us, i, w, p, fine)
    ensures WorkOk(log + [write], us, i, w, p, fine)
  {
    hide Good, EntriesOk, Exact, BatchOk, Revisions;
    EntriesLater(log, write, w.ix);
    if fine { GoodLater(log, write, w.ix, p); }
    forall id | Latest(log + [write], id) > 0 && Latest(log + [write], id) in w.took ensures Exact(log + [write], w.ix, id) {
      LatestAfter(log, write, id);
      var j :| 0 <= j < i && Latest(log + [write], id) in Revisions(us[j]);
      BatchHas(log, us, j);
      RevisionsOk(log, us[j], Latest(log + [write], id));
      ExactLater(log, write, w.ix, id);
    }
  }
}
