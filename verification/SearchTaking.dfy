/**
 What a batch does take: a chat's latest write ends up in the index, or out of it,
 and is counted as taken, whenever it may be trusted and there is room for it.
 */
module SearchTaking {
  import opened SearchIndex
  import opened SearchCoverage

  /** An update counted whole, nothing handed back, and no other chat touched. */
  ghost predicate TakenBy(w: Work, u: Update, w': Work) {
    && (forall v :: v in Revisions(u) ==> v in w'.took)
    && w'.behind == w.behind && w'.ix - {u.id} == w.ix - {u.id}
  }

  /** An update given up: its revisions are handed back, not counted, and no other chat is touched. */
  ghost predicate GivenUp(w: Work, u: Update, w': Work) {
    && w'.took == w.took && w'.ix - {u.id} == w.ix - {u.id}
    && w'.behind == if Revisions(u) == [] then w.behind else w.behind[u.id := Revisions(u)]
  }

  /**
   A store that is its chat's latest write, with no gap after it or with the chat read
   back as it left it, is taken if there is room, and leaves the index exact about its chat.
   */
  lemma LatestIsStored(log: Log, us: seq<Update>, i: nat, w: Work, whole: bool, source: int, a: Answer)
    requires BatchOk(log, us) && i < |us| && !us[i].removed && EntriesOk(log, w.ix)
    requires Latest(log, us[i].id) == us[i].revision && a.fits
    requires LiveSince(us[i].revision, source, InHand(us)) || a.snapshot.Current?
    ensures var w' := MergeOne(w, us[i], whole, source, InHand(us), a);
            TakenBy(w, us[i], w') && Exact(log, w'.ix, us[i].id)
  {
    hide Latest, LiveSince, InHand, BatchOk;
    var u := us[i];
    BatchHas(log, us, i);
    if u.id in w.ix && w.ix[u.id].revision >= u.revision { NewerIsLatest(log, u.id, w.ix[u.id]); }
  }

  /** With a gap after it, a truthful read of the chat decides whether a store is the latest. */
  lemma ReadDecides(log: Log, us: seq<Update>, i: nat, w: Work, whole: bool, source: int, a: Answer)
    requires BatchOk(log, us) && i < |us| && !us[i].removed && EntriesOk(log, w.ix) && EtagsUnique(log)
    requires !LiveSince(us[i].revision, source, InHand(us))
    requires SnapshotOk(log, us[i].id, us[i].etag, a.snapshot) && !a.snapshot.Failed?
    ensures var u, w' := us[i], MergeOne(w, us[i], whole, source, InHand(us), a);
            if Latest(log, u.id) == u.revision then a.fits ==> TakenBy(w, u, w') && Exact(log, w'.ix, u.id)
            else GivenUp(w, u, w') && if Exists(log, u.id) then w'.ix == w.ix else u.id !in w'.ix
  {
    hide LiveSince, InHand, BatchOk, EtagsUnique, EntryOk, Exact, Latest, TakenBy;
    var u, l := us[i], Latest(log, us[i].id);
    BatchHas(log, us, i);
    LatestBounds(log, u.id, u.revision);
    if l == u.revision {
      if a.fits { LatestIsStored(log, us, i, w, whole, source, a); }
    } else if Exists(log, u.id) && log[l - 1].etag == u.etag {
      OneEtag(log, u.revision, l);
    }
  }

  /** With a gap and no read, or with no room for a chat the index lacks, a store changes nothing and is not counted. */
  lemma MissedChangesNothing(w: Work, u: Update, whole: bool, source: int, inHand: set<int>, a: Answer)
    requires !u.removed
    requires if LiveSince(u.revision, source, inHand) || a.snapshot.Current? then u.id !in w.ix && !a.fits else a.snapshot.Failed?
    ensures MergeOne(w, u, whole, source, inHand, a) == w
  {}

  /** A numbered removal that is its chat's latest write leaves the chat out of the index, unless the chat is found made again. */
  lemma LatestIsRemoved(log: Log, w: Work, u: Update, whole: bool, source: int, inHand: set<int>, a: Answer)
    requires UpdateOk(log, u) && u.removed && u.revision > 0 && EntriesOk(log, w.ix)
    requires Latest(log, u.id) == u.revision
    ensures var w' := MergeOne(w, u, whole, source, inHand, a);
            if a.remade then GivenUp(w, u, w') && w'.ix == w.ix
            else TakenBy(w, u, w') && u.id !in w'.ix && Exact(log, w'.ix, u.id)
  {
    hide Latest;
    if u.id in w.ix && w.ix[u.id].revision > u.revision { NewerIsLatest(log, u.id, w.ix[u.id]); }
  }

  /** A numbered removal that a later store outdates does not undo what the index has of that store. */
  lemma OldRemovalKeeps(log: Log, w: Work, u: Update, whole: bool, source: int, inHand: set<int>, a: Answer)
    requires UpdateOk(log, u) && u.removed && u.revision > 0 && u.revision < Latest(log, u.id)
    requires Exact(log, w.ix, u.id)
    ensures var w' := MergeOne(w, u, whole, source, inHand, a);
            Exact(log, w'.ix, u.id) && if a.remade then GivenUp(w, u, w') else TakenBy(w, u, w')
  {
    hide Latest;
  }

  // ---- A whole batch ----

  /** An update the batch is bound to take: its chat's latest write, trusted, with room. */
  ghost predicate MustTake(log: Log, us: seq<Update>, i: nat, source: int, a: Answer)
    requires i < |us|
  {
    && us[i].revision > 0 && Latest(log, us[i].id) == us[i].revision
    && if us[i].removed then !a.remade
       else a.fits && (LiveSince(us[i].revision, source, InHand(us)) || a.snapshot.Current?)
  }

  /** Every update of a batch bound to be taken is counted, and the index the batch leaves is exact about its chat. */
  lemma {:induction false} BatchTakes(log: Log, us: seq<Update>, n: nat, w: Work, whole: bool, source: int, answers: seq<Answer>, i: nat)
    requires BatchOk(log, us) && EntriesOk(log, w.ix) && i < n <= |us| == |answers|
    requires MustTake(log, us, i, source, answers[i])
    ensures var w' := MergeAll(w, us[..n], whole, source, InHand(us), answers[..n]);
            Exact(log, w'.ix, us[i].id) && forall v :: v in Revisions(us[i]) ==> v in w'.took
  {
    hide Latest, LiveSince, InHand, MergeOne, Exact, UpdateOk, EntriesOk;
    var k := n - 1;
    var w1 := MergeAll(w, us[..k], whole, source, InHand(us), answers[..k]);
    assert us[..n][..k] == us[..k] && answers[..n][..k] == answers[..k];
    MergedEntries(log, us, k, w, whole, source, answers);
    if i == k {
      if us[i].removed { LatestIsRemoved(log, w1, us[i], whole, source, InHand(us), answers[i]); }
      else { LatestIsStored(log, us, i, w1, whole, source, answers[i]); }
    } else {
      BatchTakes(log, us, k, w, whole, source, answers, i);
      OtherChat(w1, us[k], whole, source, InHand(us), answers[k]);
      SameEntry(log, w1.ix, MergeOne(w1, us[k], whole, source, InHand(us), answers[k]).ix, us[k].id, us[i].id);
    }
  }

  lemma OtherChat(w: Work, u: Update, whole: bool, source: int, inHand: set<int>, a: Answer)
    ensures var w' := MergeOne(w, u, whole, source, inHand, a);
            w'.ix - {u.id} == w.ix - {u.id} && w.took <= w'.took
  {}

  lemma {:induction false} MergedEntries(log: Log, us: seq<Update>, n: nat, w: Work, whole: bool, source: int, answers: seq<Answer>)
    requires BatchOk(log, us) && EntriesOk(log, w.ix) && n <= |us| == |answers|
    ensures EntriesOk(log, MergeAll(w, us[..n], whole, source, InHand(us), answers[..n]).ix)
  {
    hide Latest, LiveSince, InHand, EntryOk, BatchOk;
    if n > 0 {
      var k := n - 1;
      var w1 := MergeAll(w, us[..k], whole, source, InHand(us), answers[..k]);
      assert us[..n][..k] == us[..k] && answers[..n][..k] == answers[..k];
      MergedEntries(log, us, k, w, whole, source, answers);
      MergedEntry(log, us, k, w1, whole, source, answers[k]);
    }
  }

  lemma MergedEntry(log: Log, us: seq<Update>, i: nat, w: Work, whole: bool, source: int, a: Answer)
    requires BatchOk(log, us) && i < |us| && EntriesOk(log, w.ix)
    ensures EntriesOk(log, MergeOne(w, us[i], whole, source, InHand(us), a).ix)
  {
    hide LiveSince, InHand, BatchOk;
    var u := us[i];
    BatchHas(log, us, i);
    if !u.removed { assert StoredAt(log, u.id, u.etag, u.revision, u.revision); }
  }
}
