/**
 There are codecs of the kind the byte log asks for: frames written out in full, their
 parts each after its length or its tag, are told apart, so they can be read back.
 */
module WireCodec {
  import opened Options
  import opened Events
  import opened RunLog
  import opened Checkpoint
  import opened Streaming
  import opened FrameLogs
  import opened WireLog

  // ---- Parts, each told apart from whatever follows it ----

  function Chars(s: string): (ns: seq<nat>)
    ensures |ns| == |s| && forall i :: 0 <= i < |s| ==> ns[i] == s[i] as nat
  {
    seq(|s|, i requires 0 <= i < |s| => s[i] as nat)
  }

  function Str(s: string): seq<nat> { [|s|] + Chars(s) }

  lemma StrApart(a: string, b: string, x: seq<nat>, y: seq<nat>)
    requires Str(a) + x == Str(b) + y
    ensures a == b && x == y
  {
    var t, u := Str(a) + x, Str(b) + y;
    assert t[0] == |a| && u[0] == |b|;
    assert t[1..1 + |a|] == Chars(a) && u[1..1 + |b|] == Chars(b);
    assert t[1 + |a|..] == x && u[1 + |b|..] == y;
    forall i | 0 <= i < |a| ensures a[i] == b[i] { assert Chars(a)[i] == Chars(b)[i]; }
  }

  function Strs(ss: seq<string>): seq<nat> {
    if ss == [] then [0] else [1] + Str(ss[0]) + Strs(ss[1..])
  }

  lemma {:induction false} StrsApart(a: seq<string>, b: seq<string>, x: seq<nat>, y: seq<nat>)
    requires Strs(a) + x == Strs(b) + y
    ensures a == b && x == y
    decreases |a|
  {
    hide Str;
    var t := Strs(a) + x;
    First(Strs(a), x);
    First(Strs(b), y);
    if a == [] {
      assert t[1..] == x && (Strs(b) + y)[1..] == y;
    } else {
      assert t[1..] == Str(a[0]) + (Strs(a[1..]) + x) && (Strs(b) + y)[1..] == Str(b[0]) + (Strs(b[1..]) + y);
      StrApart(a[0], b[0], Strs(a[1..]) + x, Strs(b[1..]) + y);
      StrsApart(a[1..], b[1..], x, y);
      assert a == [a[0]] + a[1..] && b == [b[0]] + b[1..];
    }
  }

  lemma First(a: seq<nat>, x: seq<nat>)
    requires |a| > 0
    ensures (a + x)[0] == a[0]
  {}

  function Opt(o: Option<string>): seq<nat> { if o.None? then [0] else [1] + Str(o.value) }

  lemma OptApart(a: Option<string>, b: Option<string>, x: seq<nat>, y: seq<nat>)
    requires Opt(a) + x == Opt(b) + y
    ensures a == b && x == y
  {
    hide Str;
    First(Opt(a), x);
    First(Opt(b), y);
    if a.None? {
      assert (Opt(a) + x)[1..] == x && (Opt(b) + y)[1..] == y;
    } else {
      assert (Opt(a) + x)[1..] == Str(a.value) + x && (Opt(b) + y)[1..] == Str(b.value) + y;
      StrApart(a.value, b.value, x, y);
    }
  }

  function Val(v: Value): seq<nat> {
    match v
    case Number(n) => [0, n]
    case Text(t) => [1] + Str(t)
  }

  lemma ValApart(a: Value, b: Value, x: seq<nat>, y: seq<nat>)
    requires Val(a) + x == Val(b) + y
    ensures a == b && x == y
  {
    hide Str;
    First(Val(a), x);
    First(Val(b), y);
    if a.Number? {
      NumberApart(a.number, b.number, x, y);
    } else {
      TextApart(a.text, b.text, x, y);
    }
  }

  lemma NumberApart(m: nat, n: nat, x: seq<nat>, y: seq<nat>)
    requires [0, m] + x == [0, n] + y
    ensures m == n && x == y
  {
    assert ([0, m] + x)[1] == m && ([0, n] + y)[1] == n;
    assert ([0, m] + x)[2..] == x && ([0, n] + y)[2..] == y;
  }

  lemma TextApart(a: string, b: string, x: seq<nat>, y: seq<nat>)
    requires [1] + Str(a) + x == [1] + Str(b) + y
    ensures a == b && x == y
  {
    hide Str;
    assert ([1] + Str(a) + x)[1..] == Str(a) + x && ([1] + Str(b) + y)[1..] == Str(b) + y;
    StrApart(a, b, x, y);
  }

  function Pats(ps: seq<Patch>): seq<nat> {
    if ps == [] then [0] else [1] + (Str(ps[0].op) + (Str(ps[0].path) + (Val(ps[0].value) + Pats(ps[1..]))))
  }

  lemma {:induction false} PatsApart(a: seq<Patch>, b: seq<Patch>, x: seq<nat>, y: seq<nat>)
    requires Pats(a) + x == Pats(b) + y
    ensures a == b && x == y
    decreases |a|
  {
    hide Str, Val;
    First(Pats(a), x);
    First(Pats(b), y);
    if a == [] {
      assert (Pats(a) + x)[1..] == x && (Pats(b) + y)[1..] == y;
    } else {
      var p, q, r, u := a[0], b[0], Pats(a[1..]) + x, Pats(b[1..]) + y;
      PatsCons(a, x);
      PatsCons(b, y);
      StrApart(p.op, q.op, Str(p.path) + (Val(p.value) + r), Str(q.path) + (Val(q.value) + u));
      StrApart(p.path, q.path, Val(p.value) + r, Val(q.value) + u);
      ValApart(p.value, q.value, r, u);
      PatsApart(a[1..], b[1..], x, y);
      assert a == [a[0]] + a[1..] && b == [b[0]] + b[1..];
    }
  }

  lemma PatsCons(a: seq<Patch>, x: seq<nat>)
    requires a != []
    ensures (Pats(a) + x)[1..] == Str(a[0].op) + (Str(a[0].path) + (Val(a[0].value) + (Pats(a[1..]) + x)))
  {
    hide Str, Val;
    Regroup([1], Str(a[0].op), Str(a[0].path), Val(a[0].value), Pats(a[1..]), x);
  }

  lemma Regroup(t: seq<nat>, a: seq<nat>, b: seq<nat>, c: seq<nat>, d: seq<nat>, x: seq<nat>)
    requires |t| == 1
    ensures (t + (a + (b + (c + d))) + x)[1..] == a + (b + (c + (d + x)))
  {}

  // ---- Frames ----

  /** A frame's tag and numbers, its strings, and its lists; strings and lists are always all there, empty if it has none. */
  datatype Parts = Parts(tag: nat, at: nat, n: nat, strings: seq<string>, display: Option<string>, patch: seq<Patch>)

  function Taken(f: Frame): Parts {
    match f.event
    case TextChunk(id, role, delta) => Parts(0, f.at, 0, [id, role, delta], None, [])
    case ReasoningChunk(id, delta) => Parts(1, f.at, 0, [id, delta], None, [])
    case ToolCallArgs(id, delta) => Parts(2, f.at, 0, [id, delta], None, [])
    case ToolCallStart(id, name, parent) => Parts(3, f.at, 0, [id, name, parent], None, [])
    case ToolCallEnd(id) => Parts(4, f.at, 0, [id], None, [])
    case ToolCallResult(id, content, metadata, display, valid) => Parts(5, f.at, if valid then 1 else 0, [id, content, metadata], display, [])
    case ActivitySnapshot(id, a, display) => Parts(6, f.at, a.progress, [id, a.toolCallId, a.tool] + a.output, display, [])
    case ActivityDelta(id, patch, display) => Parts(7, f.at, 0, [id], display, patch)
    case Other(name, members, valid) => Parts(8, f.at, if valid then 1 else 0, [name, members], None, [])
  }

  lemma PartsApart(f: Frame, g: Frame)
    requires Taken(f) == Taken(g)
    ensures f == g
  {
    var a, b := Taken(f).strings, Taken(g).strings;
    assert a == b;
    assert forall i :: 0 <= i < |a| ==> a[i] == b[i];
    if f.event.ActivitySnapshot? {
      assert a[3..] == f.event.activity.output && b[3..] == g.event.activity.output;
    }
  }

  function Numbers(p: Parts): seq<nat> { [p.tag, p.at, p.n] + (Strs(p.strings) + (Opt(p.display) + Pats(p.patch))) }

  lemma NumbersApart(p: Parts, q: Parts)
    requires Numbers(p) == Numbers(q)
    ensures p == q
  {
    hide Strs, Opt, Pats;
    var t, u := Numbers(p), Numbers(q);
    assert t[0] == p.tag && t[1] == p.at && t[2] == p.n && u[0] == q.tag && u[1] == q.at && u[2] == q.n;
    assert t[3..] == Strs(p.strings) + (Opt(p.display) + Pats(p.patch)) && u[3..] == Strs(q.strings) + (Opt(q.display) + Pats(q.patch));
    StrsApart(p.strings, q.strings, Opt(p.display) + Pats(p.patch), Opt(q.display) + Pats(q.patch));
    OptApart(p.display, q.display, Pats(p.patch), Pats(q.patch));
    assert Pats(p.patch) == Pats(p.patch) + [] && Pats(q.patch) == Pats(q.patch) + [];
    PatsApart(p.patch, q.patch, [], []);
  }

  // ---- Bytes ----

  /** A number as so many ones and a zero. */
  function Ones(n: nat): Bytes { if n == 0 then [0] else [1] + Ones(n - 1) }

  lemma {:induction false} OnesApart(m: nat, n: nat, x: Bytes, y: Bytes)
    requires Ones(m) + x == Ones(n) + y
    ensures m == n && x == y
  {
    assert (Ones(m) + x)[0] == Ones(m)[0] && (Ones(n) + y)[0] == Ones(n)[0];
    if m > 0 {
      assert (Ones(m) + x)[1..] == Ones(m - 1) + x && (Ones(n) + y)[1..] == Ones(n - 1) + y;
      OnesApart(m - 1, n - 1, x, y);
    } else {
      assert (Ones(m) + x)[1..] == x && (Ones(n) + y)[1..] == y;
    }
  }

  function AllOnes(ns: seq<nat>): Bytes { if ns == [] then [] else Ones(ns[0]) + AllOnes(ns[1..]) }

  lemma OnesLonger(n: nat)
    ensures |Ones(n)| > 0
  {}

  lemma {:induction false} AllOnesApart(a: seq<nat>, b: seq<nat>)
    requires AllOnes(a) == AllOnes(b)
    ensures a == b
  {
    hide Ones;
    if a != [] { OnesLonger(a[0]); }
    if b != [] { OnesLonger(b[0]); }
    if a != [] && b != [] {
      OnesApart(a[0], b[0], AllOnes(a[1..]), AllOnes(b[1..]));
      AllOnesApart(a[1..], b[1..]);
      assert a == [a[0]] + a[1..] && b == [b[0]] + b[1..];
    }
  }

  function Encode(f: Frame): Bytes { AllOnes(Numbers(Taken(f))) }

  lemma EncodeApart(f: Frame, g: Frame)
    requires Encode(f) == Encode(g)
    ensures f == g
  {
    hide AllOnes, Numbers, Taken;
    AllOnesApart(Numbers(Taken(f)), Numbers(Taken(g)));
    NumbersApart(Taken(f), Taken(g));
    PartsApart(f, g);
  }

  ghost function Decode(b: Bytes): Frame {
    if f: Frame :| Encode(f) == b then f else Frame(Other("", "", true), 0)
  }

  lemma DecodesEncoded(f: Frame)
    ensures Decode(Encode(f)) == f
  {
    hide Encode;
    EncodeApart(f, Decode(Encode(f)));
  }

  /** Some codec and some measure of frames meet every law the byte log relies on. */
  lemma LawsCanBeMet()
    ensures exists w: Wire, env: Env :: Lawful(w, env)
  {
    hide Encode, Decode, Merged;
    ghost var decode := (b: Bytes) => Decode(b);
    var w := Wire(f => Encode(f), decode, bs => Encode(Merged(Map(decode, bs))));
    var env := Env(f => |Encode(f)|);
    forall f: Frame ensures w.decode(w.encode(f)) == f { DecodesEncoded(f); }
    forall es: seq<Entry<Bytes>> ensures MergesWell(w, env, es) { DecodesEncoded(Merged(Map(decode, Datas(es)))); }
    assert Lawful(w, env);
  }
}
