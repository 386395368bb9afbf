/**
 The temporary space archives are spooled to (internal/archives/scratch.go): requests
 take it as their files are written, wait for it only while they hold none, and give it
 back with their lease or with a file detached from it. Each call is a step, and the
 steps of requests interleave in any order.
 */
module Scratch {
  import opened Options

  type LeaseId = nat
  type FileId = nat

  // ---- Sums over maps ----

  ghost function Total(m: map<nat, int>): int {
    if m == map[] then 0
    else
      var k :| k in m;
      m[k] + Total(m - {k})
  }

  lemma {:induction false} TotalBut(m: map<nat, int>, k: nat)
    requires k in m
    ensures Total(m) == m[k] + Total(m - {k})
    decreases |m|
  {
    var j :| j in m && Total(m) == m[j] + Total(m - {j});
    if j != k {
      TotalBut(m - {j}, k);
      TotalBut(m - {k}, j);
      assert m - {j} - {k} == m - {k} - {j};
    }
  }

  lemma TotalSet(m: map<nat, int>, k: nat, v: int)
    ensures Total(m[k := v]) == Total(m) - (if k in m then m[k] else 0) + v
  {
    TotalBut(m[k := v], k);
    assert m[k := v] - {k} == m - {k};
    if k in m {
      TotalBut(m, k);
    } else {
      assert m - {k} == m;
    }
  }

  lemma {:induction false} TotalPositive(m: map<nat, int>)
    requires forall k :: k in m ==> m[k] >= 0
    ensures Total(m) >= 0 && forall k :: k in m ==> m[k] <= Total(m)
    decreases |m|
  {
    forall k | k in m ensures m[k] <= Total(m) {
      TotalBut(m, k);
      TotalPositive(m - {k});
    }
    if m != map[] {
      var k :| k in m;
      assert m[k] <= Total(m);
    }
  }

  lemma {:induction false} TotalZero(m: map<nat, int>)
    requires forall k :: k in m ==> m[k] == 0
    ensures Total(m) == 0
    decreases |m|
  {
    if m != map[] {
      var k :| k in m && Total(m) == m[k] + Total(m - {k});
      TotalZero(m - {k});
    }
  }

  // ---- State ----

  /** A write waiting for space. */
  datatype Want = Want(file: FileId, n: nat)

  datatype Lease = Lease(held: int, released: bool, wants: Option<Want>)

  /** A spool file: size counts the bytes written, held the units of space. */
  datatype File = File(lease: LeaseId, size: int, held: int, detached: bool)

  /** taken is the weight of the semaphore in use. */
  datatype State = State(size: nat, taken: int, leases: map<LeaseId, Lease>, files: map<FileId, File>, waiters: seq<LeaseId>)

  function Leased(s: State): map<nat, int> { map l | l in s.leases :: s.leases[l].held }

  function Detached(s: State): map<nat, int> { map f | f in s.files :: if s.files[f].detached then s.files[f].held else 0 }

  function FilesOf(s: State, l: LeaseId): map<nat, int> {
    map f | f in s.files :: if s.files[f].lease == l && !s.files[f].detached then s.files[f].held else 0
  }

  // ---- Steps ----

  datatype Answer = Took | TooLarge | Busy | Waits

  function TakeAnswer(s: State, l: LeaseId, n: nat): Answer
    requires l in s.leases
  {
    if s.leases[l].held + n > s.size then TooLarge
    else if s.size - s.taken >= n && s.waiters == [] then Took
    else if s.leases[l].held > 0 then Busy
    else Waits
  }

  /** A file's write has its space: what of it was written counts as the file's size. */
  function Taken(s: State, f: FileId, n: nat, wrote: nat): State
    requires f in s.files && s.files[f].lease in s.leases
  {
    var x := s.files[f];
    var y := s.leases[x.lease];
    s.(taken := s.taken + n,
       leases := s.leases[x.lease := Lease(y.held + n, y.released, None)],
       files := s.files[f := x.(held := x.held + n, size := x.size + wrote)])
  }

  function Without(ls: seq<LeaseId>, l: LeaseId): seq<LeaseId> {
    if ls == [] then [] else if ls[0] == l then ls[1..] else [ls[0]] + Without(ls[1..], l)
  }

  datatype Step =
    | Open(l: LeaseId)
    | Create(l: LeaseId, f: FileId)
    | Write(f: FileId, n: nat, wrote: nat)
    | Grant(l: LeaseId, wrote: nat)
    | TimeOut(l: LeaseId)
    | Release(l: LeaseId)
    | Detach(f: FileId)
    | ReleaseFile(f: FileId)

  predicate InUse(s: State, l: LeaseId) { l in s.leases && !s.leases[l].released && s.leases[l].wants.None? }

  predicate Enabled(s: State, step: Step) {
    match step
    case Open(l) => l !in s.leases
    case Create(l, f) => InUse(s, l) && f !in s.files
    case Write(f, n, wrote) => f in s.files && !s.files[f].detached && InUse(s, s.files[f].lease) && wrote <= n
    case Grant(l, wrote) =>
      && s.waiters != [] && s.waiters[0] == l && l in s.leases && s.leases[l].wants.Some?
      && s.leases[l].wants.value.file in s.files && s.files[s.leases[l].wants.value.file].lease == l
      && s.size - s.taken >= s.leases[l].wants.value.n >= wrote
    case TimeOut(l) => l in s.leases && s.leases[l].wants.Some?
    case Release(l) => l in s.leases && s.leases[l].wants.None?
    case Detach(f) => f in s.files && !s.files[f].detached && InUse(s, s.files[f].lease)
    case ReleaseFile(f) => f in s.files && s.files[f].detached
  }

  function Next(s: State, step: Step): State
    requires Enabled(s, step)
  {
    match step
    case Open(l) => s.(leases := s.leases[l := Lease(0, false, None)])
    case Create(l, f) => s.(files := s.files[f := File(l, 0, 0, false)])
    case Write(f, n, wrote) =>
      var l := s.files[f].lease;
      (match TakeAnswer(s, l, n)
       case Took => Taken(s, f, n, wrote)
       case Waits => s.(leases := s.leases[l := s.leases[l].(wants := Some(Want(f, n)))], waiters := s.waiters + [l])
       case _ => s)
    case Grant(l, wrote) =>
      var w := s.leases[l].wants.value;
      Taken(s, w.file, w.n, wrote).(waiters := s.waiters[1..])
    case TimeOut(l) => s.(leases := s.leases[l := s.leases[l].(wants := None)], waiters := Without(s.waiters, l))
    case Release(l) =>
      s.(taken := s.taken - s.leases[l].held, leases := s.leases[l := s.leases[l].(held := 0, released := true)])
    case Detach(f) =>
      var l := s.files[f].lease;
      s.(leases := s.leases[l := s.leases[l].(held := s.leases[l].held - s.files[f].held)],
         files := s.files[f := s.files[f].(detached := true)])
    case ReleaseFile(f) =>
      s.(taken := s.taken - s.files[f].held, files := s.files[f := s.files[f].(held := 0)])
  }

  // ---- The invariant ----

  ghost predicate LeaseOk(s: State, l: LeaseId)
    requires l in s.leases
  {
    var x := s.leases[l];
    && x.held >= 0 && (x.released ==> x.held == 0 && x.wants.None?)
    && (!x.released ==> x.held == Total(FilesOf(s, l)))
    && (x.wants.Some? <==> l in s.waiters)
    && (x.wants.Some? ==>
          && x.held == 0 && x.wants.value.n <= s.size
          && x.wants.value.file in s.files && s.files[x.wants.value.file].lease == l && !s.files[x.wants.value.file].detached)
  }

  ghost predicate FileOk(s: State, f: FileId)
    requires f in s.files
  {
    s.files[f].held >= 0 && s.files[f].lease in s.leases
  }

  ghost predicate Queue(s: State) {
    && (forall i :: 0 <= i < |s.waiters| ==> s.waiters[i] in s.leases)
    && (forall i, j :: 0 <= i < j < |s.waiters| ==> s.waiters[i] != s.waiters[j])
  }

  /** The space in use is what leases and detached files hold, and fits. */
  ghost predicate Conserved(s: State) {
    s.taken == Total(Leased(s)) + Total(Detached(s)) && 0 <= s.taken <= s.size
  }

  ghost predicate Inv(s: State) {
    && Conserved(s) && Queue(s)
    && (forall l :: l in s.leases ==> LeaseOk(s, l))
    && (forall f :: f in s.files ==> FileOk(s, f))
  }

  // ---- How the sums move ----

  lemma LeasedSet(s: State, t: State, l: LeaseId)
    requires l in s.leases && l in t.leases && t.leases == s.leases[l := t.leases[l]]
    ensures Total(Leased(t)) == Total(Leased(s)) - s.leases[l].held + t.leases[l].held
  {
    hide Total;
    TotalSet(Leased(s), l, t.leases[l].held);
    assert Leased(t) == Leased(s)[l := t.leases[l].held];
  }

  function DetachedHeld(x: File): int { if x.detached then x.held else 0 }

  function LeaseHeld(x: File, l: LeaseId): int { if x.lease == l && !x.detached then x.held else 0 }

  lemma FileSet(s: State, t: State, f: FileId, l: LeaseId)
    requires f in s.files && f in t.files && t.files == s.files[f := t.files[f]]
    ensures Total(Detached(t)) == Total(Detached(s)) - DetachedHeld(s.files[f]) + DetachedHeld(t.files[f])
    ensures Total(FilesOf(t, l)) == Total(FilesOf(s, l)) - LeaseHeld(s.files[f], l) + LeaseHeld(t.files[f], l)
  {
    hide Total;
    TotalSet(Detached(s), f, DetachedHeld(t.files[f]));
    assert Detached(t) == Detached(s)[f := DetachedHeld(t.files[f])];
    TotalSet(FilesOf(s, l), f, LeaseHeld(t.files[f], l));
    assert FilesOf(t, l) == FilesOf(s, l)[f := LeaseHeld(t.files[f], l)];
  }

  lemma FileNew(s: State, t: State, f: FileId, l: LeaseId)
    requires f !in s.files && f in t.files && t.files == s.files[f := t.files[f]] && t.files[f].held == 0
    ensures Total(Detached(t)) == Total(Detached(s)) && Total(FilesOf(t, l)) == Total(FilesOf(s, l))
  {
    hide Total;
    TotalSet(Detached(s), f, 0);
    assert Detached(t) == Detached(s)[f := 0];
    TotalSet(FilesOf(s, l), f, 0);
    assert FilesOf(t, l) == FilesOf(s, l)[f := 0];
  }

  /** No lease or detached file holds more than is taken. */
  lemma HeldFits(s: State)
    requires Inv(s)
    ensures forall l :: l in s.leases ==> s.leases[l].held <= s.taken
    ensures forall f :: f in s.files && s.files[f].detached ==> s.files[f].held <= s.taken
    ensures forall l, f :: l in s.leases && !s.leases[l].released && f in s.files && s.files[f].lease == l && !s.files[f].detached ==>
              s.files[f].held <= s.leases[l].held
  {
    hide Queue, Total;
    forall k | k in Leased(s) ensures Leased(s)[k] >= 0 { assert LeaseOk(s, k); }
    forall k | k in Detached(s) ensures Detached(s)[k] >= 0 { assert FileOk(s, k); }
    TotalPositive(Leased(s));
    TotalPositive(Detached(s));
    forall l | l in s.leases ensures s.leases[l].held <= s.taken { assert Leased(s)[l] == s.leases[l].held; }
    forall f | f in s.files && s.files[f].detached ensures s.files[f].held <= s.taken { assert Detached(s)[f] == s.files[f].held; }
    forall l, f | l in s.leases && !s.leases[l].released && f in s.files && s.files[f].lease == l && !s.files[f].detached
      ensures s.files[f].held <= s.leases[l].held
    {
      assert LeaseOk(s, l);
      forall k | k in FilesOf(s, l) ensures FilesOf(s, l)[k] >= 0 { assert FileOk(s, k); }
      TotalPositive(FilesOf(s, l));
      assert FilesOf(s, l)[f] == s.files[f].held;
    }
  }

  // ---- The steps keep the invariant ----

  lemma OpenInv(s: State, l: LeaseId)
    requires Inv(s) && l !in s.leases
    ensures Inv(Next(s, Open(l)))
  {
    hide Total;
    var t := Next(s, Open(l));
    TotalSet(Leased(s), l, 0);
    assert Leased(t) == Leased(s)[l := 0] && Detached(t) == Detached(s);
    forall k | k in FilesOf(t, l) ensures FilesOf(t, l)[k] == 0 { assert FileOk(s, k); }
    TotalZero(FilesOf(t, l));
    forall k | k in t.leases ensures LeaseOk(t, k) {
      assert FilesOf(t, k) == FilesOf(s, k);
      if k != l { assert LeaseOk(s, k); }
    }
    forall f | f in t.files ensures FileOk(t, f) { assert FileOk(s, f); }
  }

  lemma CreateInv(s: State, l: LeaseId, f: FileId)
    requires Inv(s) && Enabled(s, Create(l, f))
    ensures Inv(Next(s, Create(l, f)))
  {
    hide Total, Detached, FilesOf;
    var t := Next(s, Create(l, f));
    FileNew(s, t, f, l);
    assert Leased(t) == Leased(s);
    forall k | k in t.leases ensures LeaseOk(t, k) { FileNew(s, t, f, k); assert LeaseOk(s, k); }
    forall k | k in t.files ensures FileOk(t, k) { if k != f { assert FileOk(s, k); } }
  }

  lemma TakenInv(s: State, t: State, f: FileId, n: nat, wrote: nat)
    requires Inv(s) && f in s.files && !s.files[f].detached && s.files[f].lease in s.leases && s.size - s.taken >= n
    requires !s.leases[s.files[f].lease].released
    requires t == Taken(s, f, n, wrote).(waiters := t.waiters) && Queue(t)
    requires forall k :: k in t.waiters <==> k in s.waiters && k != s.files[f].lease
    ensures Inv(t)
  {
    hide Total, Detached, FilesOf, Leased;
    var l := s.files[f].lease;
    LeasedSet(s, t, l);
    FileSet(s, t, f, l);
    forall k | k in t.leases ensures LeaseOk(t, k) { FileSet(s, t, f, k); assert LeaseOk(s, k); }
    forall k | k in t.files ensures FileOk(t, k) { assert FileOk(s, k); }
  }

  lemma WriteInv(s: State, f: FileId, n: nat, wrote: nat)
    requires Inv(s) && Enabled(s, Write(f, n, wrote))
    ensures Inv(Next(s, Write(f, n, wrote)))
  {
    hide Total;
    var t, l := Next(s, Write(f, n, wrote)), s.files[f].lease;
    assert LeaseOk(s, l);
    match TakeAnswer(s, l, n)
    case Took => TakenInv(s, t, f, n, wrote);
    case Waits => WaitInv(s, f, n);
    case _ =>
  }

  lemma WaitInv(s: State, f: FileId, n: nat)
    requires Inv(s) && Enabled(s, Write(f, n, 0)) && TakeAnswer(s, s.files[f].lease, n) == Waits
    ensures var l := s.files[f].lease;
            Inv(s.(leases := s.leases[l := s.leases[l].(wants := Some(Want(f, n)))], waiters := s.waiters + [l]))
  {
    hide Total;
    var l := s.files[f].lease;
    var t := s.(leases := s.leases[l := s.leases[l].(wants := Some(Want(f, n)))], waiters := s.waiters + [l]);
    assert LeaseOk(s, l);
    LeasedSet(s, t, l);
    assert Detached(t) == Detached(s);
    forall k | k in t.leases ensures LeaseOk(t, k) { assert LeaseOk(s, k); assert FilesOf(t, k) == FilesOf(s, k); }
    forall k | k in t.files ensures FileOk(t, k) { assert FileOk(s, k); }
  }

  lemma GrantInv(s: State, l: LeaseId, wrote: nat)
    requires Inv(s) && Enabled(s, Grant(l, wrote))
    ensures Inv(Next(s, Grant(l, wrote)))
  {
    hide Total, Leased, Detached, FilesOf;
    var w := s.leases[l].wants.value;
    assert LeaseOk(s, l);
    assert s.waiters == [l] + s.waiters[1..];
    TakenInv(s, Next(s, Grant(l, wrote)), w.file, w.n, wrote);
  }

  lemma {:induction false} WithoutFacts(ls: seq<LeaseId>, l: LeaseId)
    requires forall i, j :: 0 <= i < j < |ls| ==> ls[i] != ls[j]
    ensures var r := Without(ls, l);
            && (forall i, j :: 0 <= i < j < |r| ==> r[i] != r[j])
            && (forall k :: k in r <==> k in ls && k != l)
  {
    if ls != [] {
      assert ls == [ls[0]] + ls[1..];
      var rest := ls[1..];
      assert forall i :: 0 <= i < |rest| ==> rest[i] == ls[i + 1];
      WithoutFacts(rest, l);
      assert forall k :: k in ls <==> k == ls[0] || k in rest;
      if ls[0] == l {
        forall k | k in rest ensures k != l {}
      } else {
        var r := Without(rest, l);
        forall i | 0 <= i < |r| ensures r[i] != ls[0] { assert r[i] in rest; }
        assert forall k :: k in [ls[0]] + r <==> k == ls[0] || k in r;
      }
    }
  }

  lemma TimeOutInv(s: State, l: LeaseId)
    requires Inv(s) && Enabled(s, TimeOut(l))
    ensures Inv(Next(s, TimeOut(l)))
  {
    hide Total, Without;
    var t := Next(s, TimeOut(l));
    WithoutFacts(s.waiters, l);
    LeasedSet(s, t, l);
    assert Detached(t) == Detached(s);
    forall k | k in t.leases ensures LeaseOk(t, k) { assert LeaseOk(s, k); assert FilesOf(t, k) == FilesOf(s, k); }
    forall k | k in t.files ensures FileOk(t, k) { assert FileOk(s, k); }
    forall i | 0 <= i < |t.waiters| ensures t.waiters[i] in t.leases { assert t.waiters[i] in s.waiters; }
  }

  lemma ReleaseInv(s: State, l: LeaseId)
    requires Inv(s) && Enabled(s, Release(l))
    ensures Inv(Next(s, Release(l)))
  {
    hide Total;
    var t := Next(s, Release(l));
    HeldFits(s);
    LeasedSet(s, t, l);
    assert LeaseOk(s, l) && Detached(t) == Detached(s);
    forall k | k in t.leases ensures LeaseOk(t, k) { assert LeaseOk(s, k); assert FilesOf(t, k) == FilesOf(s, k); }
    forall k | k in t.files ensures FileOk(t, k) { assert FileOk(s, k); }
  }

  lemma DetachInv(s: State, f: FileId)
    requires Inv(s) && Enabled(s, Detach(f))
    ensures Inv(Next(s, Detach(f)))
  {
    hide Total, Detached, FilesOf, Leased;
    var t, l := Next(s, Detach(f)), s.files[f].lease;
    HeldFits(s);
    LeasedSet(s, t, l);
    FileSet(s, t, f, l);
    forall k | k in t.leases ensures LeaseOk(t, k) { FileSet(s, t, f, k); assert LeaseOk(s, k); }
    forall k | k in t.files ensures FileOk(t, k) { assert FileOk(s, k); }
  }

  lemma ReleaseFileInv(s: State, f: FileId)
    requires Inv(s) && Enabled(s, ReleaseFile(f))
    ensures Inv(Next(s, ReleaseFile(f)))
  {
    hide Total, Detached, FilesOf, Leased;
    var t := Next(s, ReleaseFile(f));
    HeldFits(s);
    FileSet(s, t, f, s.files[f].lease);
    assert FileOk(s, f);
    assert Leased(t) == Leased(s) by { SameLeased(s, t); }
    forall k | k in t.leases ensures LeaseOk(t, k) { FileSet(s, t, f, k); assert LeaseOk(s, k); }
    forall k | k in t.files ensures FileOk(t, k) { assert FileOk(s, k); }
  }

  lemma SameLeased(s: State, t: State)
    requires t.leases == s.leases
    ensures Leased(t) == Leased(s)
  {}

  lemma StepInv(s: State, step: Step)
    requires Inv(s) && Enabled(s, step)
    ensures Inv(Next(s, step))
  {
    hide Inv, Next, Enabled;
    match step
    case Open(l) => assert l !in s.leases by { OpenIsNew(s, l); } OpenInv(s, l);
    case Create(l, f) => CreateInv(s, l, f);
    case Write(f, n, wrote) => WriteInv(s, f, n, wrote);
    case Grant(l, wrote) => GrantInv(s, l, wrote);
    case TimeOut(l) => TimeOutInv(s, l);
    case Release(l) => ReleaseInv(s, l);
    case Detach(f) => DetachInv(s, f);
    case ReleaseFile(f) => ReleaseFileInv(s, f);
  }

  lemma OpenIsNew(s: State, l: LeaseId)
    requires Enabled(s, Open(l))
    ensures l !in s.leases
  {}

  // ---- Whole runs ----

  ghost predicate Run(ss: seq<State>, steps: seq<Step>) {
    && |ss| == |steps| + 1 && ss[0] == State(ss[0].size, 0, map[], map[], [])
    && forall i :: 0 <= i < |steps| ==> Enabled(ss[i], steps[i]) && ss[i + 1] == Next(ss[i], steps[i])
  }

  lemma StartInv(s: State)
    requires s == State(s.size, 0, map[], map[], [])
    ensures Inv(s)
  {
    TotalZero(Leased(s));
    TotalZero(Detached(s));
  }

  /** In every reachable state the weight taken is what leases and detached files hold, and fits the space. */
  lemma {:induction false} SpaceConserved(ss: seq<State>, steps: seq<Step>, i: nat)
    requires Run(ss, steps) && i < |ss|
    ensures Inv(ss[i]) && Conserved(ss[i])
  {
    hide Enabled, Next, Conserved, Queue, LeaseOk, FileOk;
    if i == 0 {
      StartInv(ss[0]);
    } else {
      SpaceConserved(ss, steps, i - 1);
      StepInv(ss[i - 1], steps[i - 1]);
    }
  }

  /** Once every lease and every detached file is released, the whole space is free. */
  lemma AllGivenBack(ss: seq<State>, steps: seq<Step>, i: nat)
    requires Run(ss, steps) && i < |ss|
    requires forall l :: l in ss[i].leases ==> ss[i].leases[l].released
    requires forall f :: f in ss[i].files && ss[i].files[f].detached ==> ss[i].files[f].held == 0
    ensures ss[i].taken == 0
  {
    hide Enabled, Next, Queue;
    SpaceConserved(ss, steps, i);
    var s := ss[i];
    forall l | l in Leased(s) ensures Leased(s)[l] == 0 { assert LeaseOk(s, l); }
    TotalZero(Leased(s));
    TotalZero(Detached(s));
  }

  /** A request waits only while it holds nothing, so whoever holds space waits for nobody. */
  lemma WaitersHoldNothing(ss: seq<State>, steps: seq<Step>, i: nat, l: LeaseId)
    requires Run(ss, steps) && i < |ss| && l in ss[i].leases && ss[i].leases[l].wants.Some?
    ensures ss[i].leases[l].held == 0
    ensures forall f :: f in ss[i].files && ss[i].files[f].lease == l && !ss[i].files[f].detached ==> ss[i].files[f].held == 0
  {
    hide Enabled, Next, Queue;
    SpaceConserved(ss, steps, i);
    assert LeaseOk(ss[i], l);
    HeldFits(ss[i]);
    forall f | f in ss[i].files && ss[i].files[f].lease == l && !ss[i].files[f].detached ensures ss[i].files[f].held == 0 {
      assert FileOk(ss[i], f);
    }
  }

  /** No wait is forever by itself: the first in line is granted, or someone who does not wait holds space it can free. */
  lemma WaitsEnd(ss: seq<State>, steps: seq<Step>, i: nat)
    requires Run(ss, steps) && i < |ss| && ss[i].waiters != []
    ensures || Enabled(ss[i], Grant(ss[i].waiters[0], 0))
            || (exists l :: l in ss[i].leases && ss[i].leases[l].held > 0 && Enabled(ss[i], Release(l)))
            || (exists f :: f in ss[i].files && ss[i].files[f].held > 0 && Enabled(ss[i], ReleaseFile(f)))
  {
    hide Next, Enabled, Inv;
    SpaceConserved(ss, steps, i);
    var s := ss[i];
    if s.taken > 0 {
      SomeoneHolds(s);
      if l :| l in s.leases && s.leases[l].held > 0 && s.leases[l].wants.None? {
        MayRelease(s, l);
      } else {
        var f :| f in s.files && s.files[f].held > 0 && s.files[f].detached;
        MayReleaseFile(s, f);
      }
    } else {
      FirstFits(s);
    }
  }

  /**
   In every reachable state a request gets its space at once exactly if that much is free
   and nobody waits; it is refused as too large exactly if, with what it holds, it would
   not fit in the whole space; of the rest a holder is refused and another waits.
   */
  lemma FreeIsTaken(ss: seq<State>, steps: seq<Step>, i: nat, l: LeaseId, n: nat)
    requires Run(ss, steps) && i < |ss| && l in ss[i].leases
    ensures var s, a := ss[i], TakeAnswer(ss[i], l, n);
            && (a.Took? <==> s.taken + n <= s.size && s.waiters == [])
            && (a.TooLarge? <==> s.size < s.leases[l].held + n)
            && (a.Busy? || a.Waits? ==> s.taken > s.size - n || s.waiters != [])
            && (a.Busy? ==> s.leases[l].held > 0) && (a.Waits? ==> s.leases[l].held == 0)
  {
    hide Next, Enabled, Inv;
    SpaceConserved(ss, steps, i);
    HeldFits(ss[i]);
    NotNegative(ss[i], l);
  }

  lemma NotNegative(s: State, l: LeaseId)
    requires Inv(s) && l in s.leases
    ensures s.leases[l].held >= 0
  {
    hide Total;
    assert LeaseOk(s, l);
  }

  lemma MayRelease(s: State, l: LeaseId)
    requires l in s.leases && s.leases[l].wants.None?
    ensures Enabled(s, Release(l))
  {}

  lemma MayReleaseFile(s: State, f: FileId)
    requires f in s.files && s.files[f].detached
    ensures Enabled(s, ReleaseFile(f))
  {}

  /** With nothing taken, the first in line fits. */
  lemma FirstFits(s: State)
    requires Inv(s) && s.taken <= 0 && s.waiters != []
    ensures Enabled(s, Grant(s.waiters[0], 0))
  {
    hide Total;
    assert s.waiters[0] in s.waiters;
    assert LeaseOk(s, s.waiters[0]);
  }

  lemma SomeoneHolds(s: State)
    requires Inv(s) && s.taken > 0
    ensures || (exists l :: l in s.leases && s.leases[l].held > 0 && s.leases[l].wants.None?)
            || (exists f :: f in s.files && s.files[f].held > 0 && s.files[f].detached)
  {
    hide Queue;
    if (forall l :: l in s.leases ==> s.leases[l].held <= 0) && (forall f :: f in s.files && s.files[f].detached ==> s.files[f].held <= 0) {
      forall l | l in Leased(s) ensures Leased(s)[l] == 0 { assert LeaseOk(s, l); }
      forall f | f in Detached(s) ensures Detached(s)[f] == 0 { assert FileOk(s, f); }
      TotalZero(Leased(s));
      TotalZero(Detached(s));
    } else if l :| l in s.leases && s.leases[l].held > 0 {
      assert LeaseOk(s, l);
    }
  }

  // ---- The calls, as they change leases and files in place ----

  class Space {
    const size: nat
    var taken: int
    var leases: map<LeaseId, Lease>
    var files: map<FileId, File>
    var waiters: seq<LeaseId>

    ghost function View(): State
      reads this
    {
      State(size, taken, leases, files, waiters)
    }

    constructor (size: nat)
      ensures View() == State(size, 0, map[], map[], []) && Inv(View())
    {
      this.size, taken, leases, files, waiters := size, 0, map[], map[], [];
      new;
      StartInv(View());
    }

    /** Take: refuses what could never fit, takes what fits now, and waits only for a lease that holds nothing. */
    method Take(l: LeaseId, f: FileId, n: nat) returns (a: Answer)
      requires f in files && files[f].lease == l && l in leases
      modifies this`taken, this`leases, this`waiters
      ensures a == TakeAnswer(old(View()), l, n)
      ensures a.TooLarge? <==> old(leases)[l].held + n > size
      ensures a.Took? <==> old(leases)[l].held + n <= size && old(taken) + n <= size && old(waiters) == []
      ensures a.Busy? <==> old(leases)[l].held > 0 && old(leases)[l].held + n <= size && (old(taken) + n > size || old(waiters) != [])
      ensures a.Waits? <==> old(leases)[l].held <= 0 && old(leases)[l].held + n <= size && (old(taken) + n > size || old(waiters) != [])
      ensures taken == old(taken) + if a.Took? then n else 0
      ensures waiters == old(waiters) + if a.Waits? then [l] else []
      ensures leases == old(leases)[l := old(leases)[l].(held := old(leases)[l].held + if a.Took? then n else 0,
                                                        wants := if a.Waits? then Some(Want(f, n)) else old(leases)[l].wants)]
    {
      if leases[l].held + n > size { return TooLarge; }
      if size - taken >= n && waiters == [] {
        taken := taken + n;
        leases := leases[l := leases[l].(held := leases[l].held + n)];
        return Took;
      }
      if leases[l].held > 0 { return Busy; }
      leases := leases[l := leases[l].(wants := Some(Want(f, n)))];
      waiters := waiters + [l];
      return Waits;
    }

    method WriteFile(f: FileId, n: nat, wrote: nat) returns (a: Answer)
      requires Inv(View()) && Enabled(View(), Write(f, n, wrote))
      modifies this
      ensures View() == Next(old(View()), Write(f, n, wrote)) && Inv(View())
      ensures a == TakeAnswer(old(View()), old(files[f].lease), n)
    {
      hide Inv;
      ghost var s := View();
      StepInv(s, Write(f, n, wrote));
      a := Take(files[f].lease, f, n);
      if a.Took? {
        files := files[f := files[f].(held := files[f].held + n, size := files[f].size + wrote)];
      }
    }

    method ReleaseLease(l: LeaseId)
      requires Inv(View()) && Enabled(View(), Release(l))
      modifies this
      ensures View() == Next(old(View()), Release(l)) && Inv(View())
    {
      hide Inv;
      StepInv(View(), Release(l));
      taken := taken - leases[l].held;
      leases := leases[l := leases[l].(held := 0, released := true)];
    }

    method DetachFile(f: FileId)
      requires Inv(View()) && Enabled(View(), Detach(f))
      modifies this
      ensures View() == Next(old(View()), Detach(f)) && Inv(View())
    {
      hide Inv;
      StepInv(View(), Detach(f));
      var l := files[f].lease;
      leases := leases[l := leases[l].(held := leases[l].held - files[f].held)];
      files := files[f := files[f].(detached := true)];
    }

    method ReleaseDetached(f: FileId)
      requires Inv(View()) && Enabled(View(), ReleaseFile(f))
      modifies this
      ensures View() == Next(old(View()), ReleaseFile(f)) && Inv(View())
    {
      hide Inv;
      StepInv(View(), ReleaseFile(f));
      taken := taken - files[f].held;
      files := files[f := files[f].(held := 0)];
    }
  }
}
