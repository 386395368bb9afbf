/**
 The archive entries whose basename is a file id, a separator and more
 (internal/importer/index.go): a binary search over sorted basenames against a scan of
 them all.
 */
module EntryIndex {

  datatype Entry = Entry(base: string, name: string)

  datatype Match = Match(name: string, count: nat)

  const SEPARATORS := ".-_"

  // ---- The order of strings ----

  predicate Le(a: string, b: string) {
    a == "" || (b != "" && (a[0] < b[0] || (a[0] == b[0] && Le(a[1..], b[1..]))))
  }

  lemma {:induction false} LeTotal(a: string, b: string)
    ensures Le(a, b) || Le(b, a)
    decreases |a|
  {
    if a != "" && b != "" { LeTotal(a[1..], b[1..]); }
  }

  lemma {:induction false} LeTrans(a: string, b: string, c: string)
    requires Le(a, b) && Le(b, c)
    ensures Le(a, c)
    decreases |a|
  {
    if a != "" && a[0] == b[0] && b[0] == c[0] { LeTrans(a[1..], b[1..], c[1..]); }
  }

  /** What begins with a prefix does not sort before it. */
  lemma {:induction false} PrefixLe(p: string, b: string)
    requires p <= b
    ensures Le(p, b)
  {
    if p != "" {
      assert p[1..] <= b[1..];
      PrefixLe(p[1..], b[1..]);
    }
  }

  /** What sorts between a prefix and something that begins with it begins with it too. */
  lemma {:induction false} PrefixBetween(p: string, a: string, b: string)
    requires Le(p, a) && Le(a, b) && p <= b
    ensures p <= a
  {
    if p != "" {
      assert p[1..] <= b[1..];
      PrefixBetween(p[1..], a[1..], b[1..]);
      assert p == [p[0]] + p[1..] && a == [a[0]] + a[1..];
    }
  }

  ghost predicate Sorted(es: seq<Entry>) {
    forall i, j :: 0 <= i < j < |es| ==> Le(es[i].base, es[j].base)
  }

  // ---- The scan ----

  predicate Finds(e: Entry, id: string) {
    exists i :: 0 <= i < |SEPARATORS| && id + [SEPARATORS[i]] <= e.base
  }

  /** How many entries from k on a file id finds, one by one. */
  function Scanned(es: seq<Entry>, id: string, k: nat): nat
    requires k <= |es|
    decreases |es| - k
  {
    if k == |es| then 0 else (if Finds(es[k], id) then 1 else 0) + Scanned(es, id, k + 1)
  }

  function Having(es: seq<Entry>, p: string, k: nat): nat
    requires k <= |es|
    decreases |es| - k
  {
    if k == |es| then 0 else (if p <= es[k].base then 1 else 0) + Having(es, p, k + 1)
  }

  function Of(id: string, i: nat): string
    requires i < |SEPARATORS|
  {
    id + [SEPARATORS[i]]
  }

  lemma OneSeparator(id: string, b: string, i: nat, j: nat)
    requires i < |SEPARATORS| && j < |SEPARATORS| && Of(id, i) <= b && Of(id, j) <= b
    ensures i == j
  {
    assert b[|id|] == Of(id, i)[|id|] == SEPARATORS[i];
    assert b[|id|] == Of(id, j)[|id|] == SEPARATORS[j];
  }

  /** The scan counts each entry under its own separator. */
  lemma {:induction false} ScannedIsSum(es: seq<Entry>, id: string, k: nat)
    requires k <= |es|
    ensures Scanned(es, id, k) == Having(es, Of(id, 0), k) + Having(es, Of(id, 1), k) + Having(es, Of(id, 2), k)
    decreases |es| - k
  {
    if k < |es| {
      ScannedIsSum(es, id, k + 1);
      FindsOnce(es[k], id);
    }
  }

  lemma FindsOnce(e: Entry, id: string)
    ensures (if Finds(e, id) then 1 else 0) ==
            (if Of(id, 0) <= e.base then 1 else 0) + (if Of(id, 1) <= e.base then 1 else 0) + (if Of(id, 2) <= e.base then 1 else 0)
  {
    assert |SEPARATORS| == 3;
    assert Finds(e, id) <==> Of(id, 0) <= e.base || Of(id, 1) <= e.base || Of(id, 2) <= e.base;
    if Of(id, 0) <= e.base && Of(id, 1) <= e.base { OneSeparator(id, e.base, 0, 1); }
    if Of(id, 0) <= e.base && Of(id, 2) <= e.base { OneSeparator(id, e.base, 0, 2); }
    if Of(id, 1) <= e.base && Of(id, 2) <= e.base { OneSeparator(id, e.base, 1, 2); }
  }

  // ---- The search ----

  /** slices.BinarySearchFunc: the first entry that does not sort before p. */
  method LowerBound(es: seq<Entry>, p: string) returns (k: nat)
    requires Sorted(es)
    ensures k <= |es|
    ensures forall i :: 0 <= i < k ==> !Le(p, es[i].base)
    ensures forall i :: k <= i < |es| ==> Le(p, es[i].base)
  {
    var hi := |es|;
    k := 0;
    while k < hi
      invariant 0 <= k <= hi <= |es|
      invariant forall i :: 0 <= i < k ==> !Le(p, es[i].base)
      invariant forall i :: hi <= i < |es| ==> Le(p, es[i].base)
      decreases hi - k
    {
      var mid := k + (hi - k) / 2;
      if !Le(p, es[mid].base) {
        forall i | k <= i < mid ensures !Le(p, es[i].base) { NotBefore(p, es[i].base, es[mid].base); }
        k := mid + 1;
      } else {
        forall i | mid < i < hi ensures Le(p, es[i].base) { LeTrans(p, es[mid].base, es[i].base); }
        hi := mid;
      }
    }
  }

  lemma NotBefore(p: string, a: string, b: string)
    requires Le(a, b) && !Le(p, b)
    ensures !Le(p, a)
  {
    if Le(p, a) { LeTrans(p, a, b); }
  }

  /** Nothing before the bound has the prefix. */
  lemma {:induction false} NoneBefore(es: seq<Entry>, p: string, k: nat, lo: nat)
    requires k <= lo <= |es| && forall i :: 0 <= i < lo ==> !Le(p, es[i].base)
    ensures Having(es, p, k) == Having(es, p, lo)
    decreases lo - k
  {
    if k < lo {
      NoneBefore(es, p, k + 1, lo);
      if p <= es[k].base { PrefixLe(p, es[k].base); }
    }
  }

  /** After the first entry from the bound without the prefix, none has it. */
  lemma {:induction false} NoneAfter(es: seq<Entry>, p: string, k: nat, j: nat)
    requires Sorted(es) && k <= j <= |es| && (k < |es| ==> Le(p, es[k].base) && !(p <= es[k].base))
    ensures Having(es, p, j) == 0
    decreases |es| - j
  {
    if j < |es| {
      NoneAfter(es, p, k, j + 1);
      if p <= es[j].base {
        if k < j { PrefixBetween(p, es[k].base, es[j].base); }
      }
    }
  }

  function Min2(n: nat): nat { if n < 2 then n else 2 }

  /** The name a match gives is that of an entry the id finds. */
  ghost predicate Names(es: seq<Entry>, id: string, m: Match) {
    m.count > 0 ==> exists k :: 0 <= k < |es| && Finds(es[k], id) && es[k].name == m.name
  }

  /** One separator's range, counted no further than a second entry in all. */
  method CountRange(es: seq<Entry>, id: string, i: nat, m0: Match) returns (m: Match)
    requires Sorted(es) && i < |SEPARATORS| && m0.count <= 2 && Names(es, id, m0)
    ensures m.count == Min2(m0.count + Having(es, Of(id, i), 0)) && Names(es, id, m)
  {
    hide Le;
    var p := Of(id, i);
    m := m0;
    var k := LowerBound(es, p);
    NoneBefore(es, p, 0, k);
    while k < |es| && m.count < 2 && p <= es[k].base
      invariant k <= |es| && m.count <= 2 && Names(es, id, m)
      invariant m.count + Having(es, p, k) == m0.count + Having(es, p, 0)
      invariant forall j :: k <= j < |es| ==> Le(p, es[j].base)
      decreases |es| - k
    {
      assert Finds(es[k], id);
      if m.count == 0 {
        m := m.(name := es[k].name);
      }
      m := m.(count := m.count + 1);
      k := k + 1;
    }
    if m.count < 2 { NoneAfter(es, p, k, k); }
  }

  lemma {:induction false} ScannedTwo(es: seq<Entry>, id: string, from: nat, j: nat, k: nat)
    requires from <= j < k < |es| && Finds(es[j], id) && Finds(es[k], id)
    ensures Scanned(es, id, from) >= 2
    decreases |es| - from
  {
    if from < j { ScannedTwo(es, id, from + 1, j, k); } else { ScannedOne(es, id, from + 1, k); }
  }

  lemma {:induction false} ScannedOne(es: seq<Entry>, id: string, from: nat, k: nat)
    requires from <= k < |es| && Finds(es[k], id)
    ensures Scanned(es, id, from) >= 1
    decreases |es| - from
  {
    if from < k { ScannedOne(es, id, from + 1, k); }
  }

  lemma OnlyOne(es: seq<Entry>, id: string, m: Match)
    requires Names(es, id, m) && m.count == 1 && Scanned(es, id, 0) == 1
    ensures forall k :: 0 <= k < |es| && Finds(es[k], id) ==> es[k].name == m.name
  {
    var j :| 0 <= j < |es| && Finds(es[j], id) && es[j].name == m.name;
    forall k | 0 <= k < |es| && Finds(es[k], id) ensures es[k].name == m.name {
      if k < j { ScannedTwo(es, id, 0, k, j); }
      if j < k { ScannedTwo(es, id, 0, j, k); }
    }
  }

  /** The ranges of the three separators give what a scan of every entry would: how many, up to two, and the one there is. */
  method ByPrefix(es: seq<Entry>, id: string) returns (m: Match)
    requires Sorted(es)
    ensures m.count == Min2(Scanned(es, id, 0))
    ensures m.count == 1 ==> forall k :: 0 <= k < |es| && Finds(es[k], id) ==> es[k].name == m.name
  {
    hide Having, Scanned, Of, Names, Le;
    m := Match("", 0);
    assert Names(es, id, m) by { NoneNamed(es, id, m); }
    ghost var total: nat := 0;
    for i := 0 to |SEPARATORS|
      invariant m.count == Min2(total) && Names(es, id, m)
      invariant total == (if i > 0 then Having(es, Of(id, 0), 0) else 0) + (if i > 1 then Having(es, Of(id, 1), 0) else 0)
                         + (if i > 2 then Having(es, Of(id, 2), 0) else 0)
    {
      m := CountRange(es, id, i, m);
      total := total + Having(es, Of(id, i), 0);
    }
    ScannedIsSum(es, id, 0);
    if m.count == 1 { OnlyOne(es, id, m); }
  }

  lemma NoneNamed(es: seq<Entry>, id: string, m: Match)
    requires m.count == 0
    ensures Names(es, id, m)
  {}
}
