/**
 A caller's updates waiting to be applied (internal/search/writer.go): one per chat,
 which stands for every write of the chat it took the place of.
 */
module SearchWriter {
  import opened SearchIndex
  import opened SearchCoverage

  type Pending = map<Id, Update>

  /** Whether an update that arrives is the one that gives way. */
  predicate GivesWay(prev: Update, u: Update) {
    prev.revision > u.revision && (u.revision > 0 || u.removed)
  }

  function Joined(prev: Update, u: Update): Update {
    if GivesWay(prev, u) then prev.(replaced := prev.replaced + Revisions(u))
    else u.(replaced := u.replaced + Revisions(prev))
  }

  function Added(pending: Pending, u: Update): Pending {
    pending[u.id := if u.id in pending then Joined(pending[u.id], u) else u]
  }

  function Max(vs: seq<int>): (m: int)
    requires |vs| > 0
    ensures m in vs && forall v :: v in vs ==> v <= m
  {
    if |vs| == 1 then vs[0]
    else
      var m := Max(vs[1..]);
      assert forall v :: v in vs ==> v == vs[0] || v in vs[1..];
      if vs[0] > m then vs[0] else m
  }

  /** Whether a superseded update's revisions are handed to the update of its chat that waits. */
  predicate Handed(pending: Pending, id: Id, revisions: seq<int>) {
    id in pending && |revisions| > 0 && pending[id].revision > Max(revisions)
  }

  function FoldedInto(pending: Pending, behind: map<Id, seq<int>>): Pending {
    map id | id in pending ::
      if id in behind && Handed(pending, id, behind[id])
      then pending[id].(replaced := pending[id].replaced + behind[id])
      else pending[id]
  }

  ghost predicate Keyed(pending: Pending) { forall id :: id in pending ==> pending[id].id == id }

  ghost predicate Before(a: Update, b: Update) {
    a.revision < b.revision || (a.revision == b.revision && a.id <= b.id)
  }

  /** A batch is the updates that waited, each once, in the order of their revisions. */
  ghost predicate IsBatch(pending: Pending, us: seq<Update>) {
    && (forall i :: 0 <= i < |us| ==> us[i].id in pending && pending[us[i].id] == us[i])
    && (forall id :: id in pending ==> exists i :: 0 <= i < |us| && us[i].id == id)
    && (forall i, j :: 0 <= i < j < |us| ==> us[i].id != us[j].id && Before(us[i], us[j]))
  }

  /** us sorts before what is left, and together they are all. */
  ghost predicate Split(all: Pending, left: Pending, us: seq<Update>) {
    && (forall id :: id in left ==> id in all && left[id] == all[id])
    && (forall i :: 0 <= i < |us| ==> us[i].id in all && us[i].id !in left && all[us[i].id] == us[i])
    && (forall id :: id in all && id !in left ==> exists i :: 0 <= i < |us| && us[i].id == id)
    && (forall i, j :: 0 <= i < j < |us| ==> us[i].id != us[j].id && Before(us[i], us[j]))
    && (forall i, id :: 0 <= i < |us| && id in left ==> Before(us[i], left[id]))
  }

  lemma SplitMore(all: Pending, left: Pending, us: seq<Update>, u: Update)
    requires Split(all, left, us) && u.id in left && left[u.id] == u && forall id :: id in left ==> Before(u, left[id])
    ensures Split(all, left - {u.id}, us + [u])
  {
    hide Before;
    var us', left' := us + [u], left - {u.id};
    forall id | id in all && id !in left' ensures exists i :: 0 <= i < |us'| && us'[i].id == id {
      if id == u.id {
        assert us'[|us|].id == id;
      } else {
        var i :| 0 <= i < |us| && us[i].id == id;
        assert us'[i].id == id;
      }
    }
  }

  lemma SplitDone(all: Pending, us: seq<Update>)
    requires Split(all, map[], us)
    ensures IsBatch(all, us)
  {
    hide Before;
  }

  class Writer {
    var pending: Pending

    constructor ()
      ensures pending == map[]
    {
      pending := map[];
    }

    method Add(u: Update)
      modifies this
      ensures pending == Added(old(pending), u)
    {
      var kept := u;
      if u.id in pending {
        var prev := pending[u.id];
        if prev.revision > u.revision && (u.revision > 0 || u.removed) {
          prev, kept := kept, prev;
        }
        kept := kept.(replaced := kept.replaced + Revisions(prev));
      }
      pending := pending[u.id := kept];
    }

    /** Takes every update that waits, sorted, and leaves none. */
    method TakeBatch() returns (us: seq<Update>)
      requires Keyed(pending)
      modifies this
      ensures IsBatch(old(pending), us) && pending == map[]
    {
      hide Before;
      us := [];
      ghost var all := pending;
      while pending != map[]
        invariant Keyed(pending) && Split(all, pending, us)
        decreases |pending|
      {
        var u := First(pending);
        SplitMore(all, pending, us, u);
        us := us + [u];
        pending := pending - {u.id};
      }
      SplitDone(all, us);
    }

    /** fold: visits the superseded chats in any order and gives each one's revisions to its waiting update, if that is newer than them all. */
    method Fold(behind: map<Id, seq<int>>)
      requires forall id :: id in behind ==> |behind[id]| > 0
      modifies this
      ensures pending == FoldedInto(old(pending), behind)
    {
      var left := behind.Keys;
      ghost var before := pending;
      while left != {}
        invariant left <= behind.Keys && pending.Keys == before.Keys
        invariant forall id :: id in pending ==>
                    pending[id] == if id in left then before[id] else FoldedInto(before, behind)[id]
        decreases |left|
      {
        var id :| id in left;
        if id in pending && pending[id].revision > Max(behind[id]) {
          pending := pending[id := pending[id].(replaced := pending[id].replaced + behind[id])];
        }
        left := left - {id};
      }
    }
  }

  /** The update that sorts first. */
  method First(pending: Pending) returns (u: Update)
    requires pending != map[] && Keyed(pending)
    ensures u.id in pending && pending[u.id] == u
    ensures forall id :: id in pending ==> Before(u, pending[id])
  {
    var id :| id in pending;
    u := pending[id];
    var left := pending.Keys - {id};
    while left != {}
      invariant left <= pending.Keys && u.id in pending && pending[u.id] == u
      invariant forall k :: k in pending && k !in left ==> Before(u, pending[k])
      decreases |left|
    {
      var k :| k in left;
      var v := pending[k];
      if v.revision < u.revision || (v.revision == u.revision && v.id < u.id) { u := v; }
      left := left - {k};
    }
  }

  // ---- Each revision is kept once, with its own chat ----

  /** How many times a revision is in a list. */
  function Times(vs: seq<int>, v: int): nat { multiset(vs)[v] }

  lemma TimesBoth(a: seq<int>, b: seq<int>, v: int)
    ensures Times(a + b, v) == Times(a, v) + Times(b, v)
  {}

  function Of(m: map<Id, seq<int>>, id: Id): seq<int> { if id in m then m[id] else [] }

  /** The revisions a chat's waiting update stands for. */
  function Kept(pending: Pending, id: Id): seq<int> { if id in pending then Revisions(pending[id]) else [] }

  /** An update of a write that has a revision, or a removal that may have none. */
  predicate Arrives(u: Update) { (u.revision > 0 || u.removed) && u.replaced == [] }

  /** An update's own revision is the largest it stands for, and one without a revision stands for nothing. */
  ghost predicate Standing(u: Update) {
    (u.revision <= 0 ==> u.removed && u.replaced == []) && forall v :: v in u.replaced ==> 0 < v <= u.revision
  }

  lemma JoinedStands(prev: Update, u: Update)
    requires Standing(prev) && Standing(u)
    ensures Standing(Joined(prev, u))
  {}

  lemma JoinedKeeps(prev: Update, u: Update, v: int)
    ensures Times(Revisions(Joined(prev, u)), v) == Times(Revisions(prev), v) + Times(Revisions(u), v)
  {
    hide Times;
    var kept, other := if GivesWay(prev, u) then prev else u, if GivesWay(prev, u) then u else prev;
    GrownTimes(kept, Revisions(other), v);
  }

  lemma GrownTimes(u: Update, vs: seq<int>, v: int)
    ensures Times(Revisions(u.(replaced := u.replaced + vs)), v) == Times(Revisions(u), v) + Times(vs, v)
  {
    hide Times;
    if u.revision > 0 {
      assert [u.revision] + (u.replaced + vs) == ([u.revision] + u.replaced) + vs;
    }
    TimesBoth(Revisions(u), vs, v);
  }

  /** What the writer does: updates arrive, all that wait are taken, and what the batch was behind of is folded back. */
  datatype Op = Add(u: Update) | Take | Fold(behind: set<Id>)

  /** The writer, with what arrived at it and what left it for good, by chat. */
  datatype Books = Books(pending: Pending, batch: Pending, arrived: map<Id, seq<int>>, gone: map<Id, seq<int>>)

  const OPENED := Books(map[], map[], map[], map[])

  function BehindOf(batch: Pending, ids: set<Id>): map<Id, seq<int>> {
    map id | id in ids && id in batch && |Revisions(batch[id])| > 0 :: Revisions(batch[id])
  }

  function Entered(b: Books, op: Op): Books {
    match op
    case Add(u) => b.(pending := Added(b.pending, u), arrived := b.arrived[u.id := Of(b.arrived, u.id) + Revisions(u)])
    case Take => if b.batch != map[] then b else b.(pending := map[], batch := b.pending)
    case Fold(ids) =>
      var behind := BehindOf(b.batch, ids);
      Books(FoldedInto(b.pending, behind), map[], b.arrived,
            map id | id in b.gone.Keys + b.batch.Keys ::
              Of(b.gone, id) + if id in behind && Handed(b.pending, id, behind[id]) then [] else Kept(b.batch, id))
  }

  function AllEntered(ops: seq<Op>): Books {
    if ops == [] then OPENED else Entered(AllEntered(ops[..|ops| - 1]), ops[|ops| - 1])
  }

  ghost predicate Stands(pending: Pending) {
    Keyed(pending) && forall id :: id in pending ==> Standing(pending[id])
  }

  /** Each revision of a chat that arrived is in one place. */
  ghost predicate Even(b: Books, id: Id, v: int) {
    Times(Kept(b.pending, id), v) + Times(Kept(b.batch, id), v) + Times(Of(b.gone, id), v) == Times(Of(b.arrived, id), v)
  }

  lemma AddEven(b: Books, u: Update, id: Id, v: int)
    requires Even(b, id, v)
    ensures Even(Entered(b, Add(u)), id, v)
  {
    hide Times, Joined, Revisions;
    if id == u.id {
      TimesBoth(Of(b.arrived, id), Revisions(u), v);
      if id in b.pending {
        JoinedKeeps(b.pending[id], u, v);
      } else {
        assert Times([], v) == 0 by { TimesNone(v); }
      }
    }
  }

  lemma TimesNone(v: int)
    ensures Times([], v) == 0
  {}

  lemma FoldEven(b: Books, ids: set<Id>, id: Id, v: int)
    requires Even(b, id, v)
    ensures Even(Entered(b, Fold(ids)), id, v)
  {
    hide Times, Revisions, Handed, Kept;
    var b', behind := Entered(b, Fold(ids)), BehindOf(b.batch, ids);
    var handed := id in behind && Handed(b.pending, id, behind[id]);
    TimesNone(v);
    assert Of(b'.gone, id) == Of(b.gone, id) + (if handed then [] else Kept(b.batch, id)) by { KeptNothing(b.batch, id); }
    TimesBoth(Of(b.gone, id), if handed then [] else Kept(b.batch, id), v);
    FoldedTimes(b, ids, id, v);
    KeptNothing(map[], id);
  }

  lemma KeptNothing(pending: Pending, id: Id)
    ensures id !in pending ==> Kept(pending, id) == []
  {}

  lemma FoldedTimes(b: Books, ids: set<Id>, id: Id, v: int)
    ensures var behind := BehindOf(b.batch, ids);
            var handed := id in behind && Handed(b.pending, id, behind[id]);
            Times(Kept(FoldedInto(b.pending, behind), id), v) ==
              Times(Kept(b.pending, id), v) + if handed then Times(Kept(b.batch, id), v) else 0
  {
    hide Times, Revisions, Max;
    var behind := BehindOf(b.batch, ids);
    if id in behind && Handed(b.pending, id, behind[id]) {
      GrownTimes(b.pending[id], behind[id], v);
    }
  }

  lemma AddStands(b: Books, u: Update)
    requires Stands(b.pending) && Arrives(u)
    ensures Stands(Added(b.pending, u))
  {
    if u.id in b.pending { JoinedStands(b.pending[u.id], u); }
  }

  lemma FoldStands(b: Books, ids: set<Id>)
    requires Stands(b.pending) && Stands(b.batch)
    ensures Stands(FoldedInto(b.pending, BehindOf(b.batch, ids)))
  {
    hide Standing, Revisions, Handed;
    var behind := BehindOf(b.batch, ids);
    forall id | id in b.pending && id in behind && Handed(b.pending, id, behind[id])
      ensures Standing(FoldedInto(b.pending, behind)[id])
    {
      HandedStands(b.pending, id, b.batch[id]);
    }
  }

  lemma HandedStands(pending: Pending, id: Id, u: Update)
    requires Handed(pending, id, Revisions(u)) && Standing(pending[id]) && Standing(u)
    ensures Standing(pending[id].(replaced := pending[id].replaced + Revisions(u)))
  {
    assert Max(Revisions(u)) in Revisions(u);
  }

  /**
   Across any sequence of updates that arrive, batches taken and folds, every revision
   that arrived is in one place, as often as it arrived: waiting or in hand with its own
   chat, or gone. An update's own revision is the largest it stands for.
   */
  lemma {:induction false} RevisionsConserved(ops: seq<Op>, id: Id, v: int)
    requires forall i :: 0 <= i < |ops| ==> ops[i].Add? ==> Arrives(ops[i].u)
    ensures Even(AllEntered(ops), id, v)
    ensures Stands(AllEntered(ops).pending) && Stands(AllEntered(ops).batch)
  {
    hide Standing, Arrives, Even, Added, FoldedInto, BehindOf;
    if ops == [] {
      assert Even(OPENED, id, v) by { OpenedEven(id, v); }
    } else {
      var n := |ops| - 1;
      var b := AllEntered(ops[..n]);
      RevisionsConserved(ops[..n], id, v);
      match ops[n]
      case Add(u) => AddEven(b, u, id, v); AddStands(b, u);
      case Take => TakeEven(b, id, v);
      case Fold(ids) => FoldEven(b, ids, id, v); FoldStands(b, ids);
    }
  }

  lemma OpenedEven(id: Id, v: int)
    ensures Even(OPENED, id, v)
  {}

  lemma TakeEven(b: Books, id: Id, v: int)
    requires Even(b, id, v)
    ensures Even(Entered(b, Take), id, v)
  {
    TimesNone(v);
  }

  // ---- Updates of writes the control plane counted ----

  lemma AddedOk(log: Log, pending: Pending, u: Update)
    requires Keyed(pending) && (forall id :: id in pending ==> UpdateOk(log, pending[id])) && UpdateOk(log, u)
    ensures Keyed(Added(pending, u)) && forall id :: id in Added(pending, u) ==> UpdateOk(log, Added(pending, u)[id])
  {
    if u.id in pending { JoinedOk(log, pending[u.id], u); }
  }

  lemma JoinedOk(log: Log, prev: Update, u: Update)
    requires UpdateOk(log, prev) && UpdateOk(log, u) && prev.id == u.id
    ensures UpdateOk(log, Joined(prev, u)) && Joined(prev, u).id == u.id
  {
    hide UpdateOk, Revisions;
    var kept, other := if GivesWay(prev, u) then prev else u, if GivesWay(prev, u) then u else prev;
    OwnRevision(log, prev);
    OwnRevision(log, u);
    forall v | v in Revisions(other) ensures IsOf(log, v, kept.id) && v <= kept.revision { RevisionsOk(log, other, v); }
    GrownOk(log, kept, Revisions(other));
  }

  lemma OwnRevision(log: Log, u: Update)
    requires UpdateOk(log, u)
    ensures u.revision <= |log| && (u.revision <= 0 ==> u.removed)
  {}

  lemma GrownOk(log: Log, u: Update, vs: seq<int>)
    requires UpdateOk(log, u) && forall v :: v in vs ==> IsOf(log, v, u.id) && v <= u.revision
    ensures UpdateOk(log, u.(replaced := u.replaced + vs))
  {
    var u' := u.(replaced := u.replaced + vs);
    assert |vs| > 0 ==> IsOf(log, vs[0], u.id) && vs[0] <= u.revision;
    forall v | u.revision > 0 && v in u'.replaced ensures 0 < v <= u.revision && log[v - 1].id == u.id {
      assert v in u.replaced || v in vs;
    }
  }

  lemma FoldedOk(log: Log, pending: Pending, behind: map<Id, seq<int>>)
    requires Keyed(pending) && (forall id :: id in pending ==> UpdateOk(log, pending[id]))
    requires forall id, v :: id in behind && v in behind[id] ==> IsOf(log, v, id)
    ensures var p := FoldedInto(pending, behind); Keyed(p) && forall id :: id in p ==> UpdateOk(log, p[id])
  {
    hide Keyed, UpdateOk;
    var p := FoldedInto(pending, behind);
    assert Keyed(p) by { FoldedKeyed(pending, behind); }
    forall id | id in p ensures UpdateOk(log, p[id]) {
      if id in behind && Handed(pending, id, behind[id]) {
        assert pending[id].id == id by { KeyedAt(pending, id); }
        HandedOk(log, pending[id], behind[id]);
      }
    }
  }

  lemma KeyedAt(pending: Pending, id: Id)
    requires Keyed(pending) && id in pending
    ensures pending[id].id == id
  {}

  lemma FoldedKeyed(pending: Pending, behind: map<Id, seq<int>>)
    requires Keyed(pending)
    ensures Keyed(FoldedInto(pending, behind))
  {}

  lemma HandedOk(log: Log, u: Update, revisions: seq<int>)
    requires UpdateOk(log, u) && |revisions| > 0 && u.revision > Max(revisions)
    requires forall v :: v in revisions ==> IsOf(log, v, u.id)
    ensures UpdateOk(log, u.(replaced := u.replaced + revisions))
  {
    hide UpdateOk, IsOf;
    GrownOk(log, u, revisions);
  }

  lemma BatchIsOk(log: Log, pending: Pending, us: seq<Update>)
    requires IsBatch(pending, us) && forall id :: id in pending ==> UpdateOk(log, pending[id])
    ensures BatchOk(log, us)
  {
    hide UpdateOk, Before;
  }
}
