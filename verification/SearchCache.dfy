/**
 The decoded indexes kept between requests (internal/search/cache.go): one per owner,
 the least recently used evicted under a byte budget.
 */
module SearchCache {
  import opened Options
  import opened SearchIndex

  type Owner = nat
  type Digest = nat    // what an entry is bound to: the object's key and the key it is sealed with
  type IndexRef = nat  // a decoded index

  class Slot {
    const owner: Owner
    const ix: IndexRef
    const key: Digest
    const size: nat
    var completeAt: nat

    constructor (owner: Owner, key: Digest, ix: IndexRef, size: nat)
      ensures this.owner == owner && this.key == key && this.ix == ix && this.size == size && completeAt == 0
    {
      this.owner, this.key, this.ix, this.size, completeAt := owner, key, ix, size, 0;
    }
  }

  // ---- Lists of slots, the most recently used first ----

  function Total(lru: seq<Slot>): nat {
    if lru == [] then 0 else Total(lru[..|lru| - 1]) + lru[|lru| - 1].size
  }

  ghost predicate OwnersDistinct(lru: seq<Slot>) {
    forall i, j :: 0 <= i < j < |lru| ==> lru[i].owner != lru[j].owner
  }

  /** The list without an owner's slot. */
  function Others(lru: seq<Slot>, owner: Owner): seq<Slot> {
    if lru == [] then []
    else
      var rest, last := Others(lru[..|lru| - 1], owner), lru[|lru| - 1];
      if last.owner == owner then rest else rest + [last]
  }

  /** What eviction from the back leaves of a list. */
  function Fitted(lru: seq<Slot>, budget: int): seq<Slot> {
    if lru == [] || Total(lru) <= budget then lru else Fitted(lru[..|lru| - 1], budget)
  }

  lemma {:induction false} OthersFacts(lru: seq<Slot>, owner: Owner)
    requires OwnersDistinct(lru)
    ensures var o := Others(lru, owner);
            && OwnersDistinct(o) && |o| <= |lru|
            && (forall i :: 0 <= i < |o| ==> o[i] in lru && o[i].owner != owner)
            && (forall i :: 0 <= i < |lru| && lru[i].owner != owner ==> lru[i] in o)
  {
    if lru != [] {
      var rest, last := lru[..|lru| - 1], lru[|lru| - 1];
      var o := Others(rest, owner);
      assert lru == rest + [last];
      OthersFacts(rest, owner);
      forall i | 0 <= i < |o| ensures o[i].owner != last.owner && o[i] in lru {
        assert o[i] in rest;
      }
    }
  }

  lemma {:induction false} OthersTotal(lru: seq<Slot>, x: Slot)
    requires OwnersDistinct(lru) && x in lru
    ensures Total(Others(lru, x.owner)) == Total(lru) - x.size
  {
    var rest, last := lru[..|lru| - 1], lru[|lru| - 1];
    assert lru == rest + [last];
    if last == x {
      OthersNone(rest, x.owner);
    } else {
      OthersTotal(rest, x);
      assert (Others(rest, x.owner) + [last])[..|Others(rest, x.owner)|] == Others(rest, x.owner);
    }
  }

  lemma {:induction false} OthersNone(lru: seq<Slot>, owner: Owner)
    requires forall i :: 0 <= i < |lru| ==> lru[i].owner != owner
    ensures Others(lru, owner) == lru
  {
    if lru != [] {
      var rest, last := lru[..|lru| - 1], lru[|lru| - 1];
      assert lru == rest + [last];
      OthersNone(rest, owner);
    }
  }

  lemma {:induction false} TotalCons(x: Slot, lru: seq<Slot>)
    ensures Total([x] + lru) == x.size + Total(lru)
  {
    if lru == [] {
      assert [x] + lru == [x];
    } else {
      var n := |lru| - 1;
      assert ([x] + lru)[..|lru|] == [x] + lru[..n];
      TotalCons(x, lru[..n]);
    }
  }

  /** Eviction keeps the longest part of the list, from the front, that fits. */
  lemma {:induction false} FittedIsLongest(lru: seq<Slot>, budget: int)
    requires budget >= 0
    ensures var f := Fitted(lru, budget);
            && f <= lru && Total(f) <= budget
            && forall n :: |f| < n <= |lru| ==> Total(lru[..n]) > budget
  {
    if lru != [] && Total(lru) > budget {
      var rest := lru[..|lru| - 1];
      FittedIsLongest(rest, budget);
      assert forall n :: 0 <= n <= |rest| ==> rest[..n] == lru[..n];
      assert lru[..|lru|] == lru;
    } else {
      assert lru[..|lru|] == lru;
    }
  }

  /** An index that fits at all is not evicted by its own arrival. */
  lemma FittedKeepsFirst(x: Slot, lru: seq<Slot>, budget: int)
    requires x.size <= budget
    ensures var f := Fitted([x] + lru, budget); |f| > 0 && f[0] == x
  {
    var all := [x] + lru;
    FittedIsLongest(all, budget);
    if |Fitted(all, budget)| == 0 {
      assert all[..1] == [x] + [];
      TotalCons(x, []);
    }
  }

  /** A map and a list hold the same slots. */
  ghost predicate Linked(lru: seq<Slot>, byOwner: map<Owner, Slot>) {
    && OwnersDistinct(lru)
    && (forall i :: 0 <= i < |lru| ==> lru[i].owner in byOwner && byOwner[lru[i].owner] == lru[i])
    && (forall o :: o in byOwner ==> byOwner[o] in lru && byOwner[o].owner == o)
  }

  lemma LinkedCons(x: Slot, lru: seq<Slot>, byOwner: map<Owner, Slot>)
    requires Linked(lru, byOwner) && x.owner !in byOwner
    ensures Linked([x] + lru, byOwner[x.owner := x])
  {
  }

  lemma LinkedOthers(lru: seq<Slot>, byOwner: map<Owner, Slot>, owner: Owner)
    requires Linked(lru, byOwner)
    ensures Linked(Others(lru, owner), byOwner - {owner})
    ensures owner !in byOwner ==> Others(lru, owner) == lru
  {
    hide Others;
    OthersFacts(lru, owner);
    if owner !in byOwner { OthersNone(lru, owner); }
    var o := Others(lru, owner);
    forall k | k in byOwner - {owner} ensures byOwner[k] in o && byOwner[k].owner == k {
      var i :| 0 <= i < |lru| && lru[i] == byOwner[k];
    }
  }

  class IndexCache {
    const budget: int
    var total: int
    var lru: seq<Slot>
    var byOwner: map<Owner, Slot>

    /** The map and the list hold the same slots, one per owner, whose sizes are counted and fit. */
    ghost predicate Counted()
      reads this
    {
      Linked(lru, byOwner) && total == Total(lru)
    }

    ghost predicate Valid()
      reads this
    {
      budget >= 0 && Counted() && total <= budget
    }

    constructor (budget: int)
      requires budget >= 0
      ensures Valid() && lru == [] && this.budget == budget
    {
      this.budget, total, lru, byOwner := budget, 0, [], map[];
    }

    method RemoveSlot(x: Slot)
      requires Counted() && x in lru
      modifies this
      ensures Counted() && lru == Others(old(lru), x.owner) && byOwner == old(byOwner) - {x.owner}
      ensures total == old(total) - x.size
    {
      hide Total, Others;
      LinkedOthers(lru, byOwner, x.owner);
      OthersTotal(lru, x);
      lru := Others(lru, x.owner);
      byOwner := byOwner - {x.owner};
      total := total - x.size;
    }

    method PushFront(x: Slot)
      requires Counted() && x.owner !in byOwner
      modifies this
      ensures Counted() && lru == [x] + old(lru) && byOwner == old(byOwner)[x.owner := x] && total == old(total) + x.size
    {
      hide Total, Linked;
      TotalCons(x, lru);
      LinkedCons(x, lru, byOwner);
      lru, byOwner, total := [x] + lru, byOwner[x.owner := x], total + x.size;
    }

    /** The owner's index when it is bound to key; one bound to another is dropped. */
    method Get(owner: Owner, key: Digest) returns (ix: Option<IndexRef>)
      requires Valid()
      modifies this
      ensures Valid()
      ensures ix == if owner in old(byOwner) && old(byOwner)[owner].key == key then Some(old(byOwner)[owner].ix) else None
      ensures ix.Some? ==> lru == [old(byOwner)[owner]] + Others(old(lru), owner) && byOwner == old(byOwner)
      ensures ix.None? ==> lru == Others(old(lru), owner) && byOwner == old(byOwner) - {owner}
    {
      hide Total, Others, OwnersDistinct;
      LinkedOthers(lru, byOwner, owner);
      if owner !in byOwner {
        return None;
      }
      var x := byOwner[owner];
      RemoveSlot(x);
      if x.key != key { return None; }
      PushFront(x);
      assert byOwner == old(byOwner);
      return Some(x.ix);
    }

    /** Caches an index as its object's, evicting the least recently used beyond the budget. */
    method Put(owner: Owner, key: Digest, ix: IndexRef, size: nat)
      requires Valid()
      modifies this
      ensures Valid()
      ensures size > budget ==> lru == Others(old(lru), owner) && byOwner == old(byOwner) - {owner}
      ensures size <= budget ==>
                && owner in byOwner && fresh(byOwner[owner]) && byOwner[owner].key == key && byOwner[owner].ix == ix
                && byOwner[owner].size == size && byOwner[owner].completeAt == 0
                && lru == Fitted([byOwner[owner]] + Others(old(lru), owner), budget)
    {
      hide Total, Others, Linked, Fitted;
      Drop(owner);
      if size > budget { return; }
      var x := new Slot(owner, key, ix, size);
      FittedKeepsFirst(x, lru, budget);
      PushFront(x);
      EvictOver();
      assert lru[0] == x;
      LinkedAt(lru, byOwner, x);
    }

    static lemma LinkedAt(lru: seq<Slot>, byOwner: map<Owner, Slot>, x: Slot)
      requires Linked(lru, byOwner) && x in lru
      ensures x.owner in byOwner && byOwner[x.owner] == x
    {}

    method EvictOver()
      requires Counted() && budget >= 0
      modifies this
      ensures Valid() && lru == Fitted(old(lru), budget)
    {
      hide Others;
      while total > budget
        invariant Counted() && Fitted(lru, budget) == Fitted(old(lru), budget)
        decreases |lru|
      {
        LastGone(lru);
        RemoveSlot(lru[|lru| - 1]);
      }
    }

    static lemma LastGone(lru: seq<Slot>)
      requires OwnersDistinct(lru) && lru != []
      ensures Others(lru, lru[|lru| - 1].owner) == lru[..|lru| - 1]
    {
      OthersNone(lru[..|lru| - 1], lru[|lru| - 1].owner);
    }

    /** Records that the owner's object was published as complete at a generation. */
    method PublishedComplete(owner: Owner, key: Digest, generation: nat)
      requires Valid()
      modifies lru
      ensures Valid()
      ensures forall x :: x in lru ==>
                x.completeAt == if x.owner == owner && x.key == key then generation else old(x.completeAt)
      ensures CompleteAt(owner, key, generation) <==> generation > 0 && owner in byOwner && byOwner[owner].key == key
    {
      if owner in byOwner && byOwner[owner].key == key {
        byOwner[owner].completeAt := generation;
      }
    }

    predicate CompleteAt(owner: Owner, key: Digest, generation: nat)
      reads this, set o | o in byOwner :: byOwner[o]
    {
      owner in byOwner && generation > 0 && byOwner[owner].key == key && byOwner[owner].completeAt == generation
    }

    method Drop(owner: Owner)
      requires Valid()
      modifies this
      ensures Valid() && lru == Others(old(lru), owner) && byOwner == old(byOwner) - {owner}
    {
      hide Total, Others, OwnersDistinct;
      LinkedOthers(lru, byOwner, owner);
      if owner in byOwner {
        RemoveSlot(byOwner[owner]);
      }
    }
  }
}
