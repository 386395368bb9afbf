/**
 What a client shows of a run, and that a checkpoint shows the same. A client
 starts from nothing and takes frames in order. It shows the events in order
 with each text as it has grown, the messages they assemble into, and each
 tool's activity under the JSON patches it was sent.
 */
module Checkpoint {
  import opened Options
  import opened Events
  import opened RunLog
  import opened Timeline

  /** A kept event as it was sent, or a text as its deltas in turn have left it. */
  datatype Item = Shown(frame: Frame) | Streaming(key: Key, text: string)

  datatype Texts = Texts(script: seq<Item>, assembly: Assembly)

  datatype Tool = Tool(activity: Activity, display: Option<Display>)

  datatype Client = Client(texts: Texts, tools: map<string, Tool>)

  // ---- Texts ----

  function ExtendScript(script: seq<Item>, key: Key, text: string): seq<Item> {
    var n := |script|;
    if n > 0 && script[n - 1].Streaming? && script[n - 1].key == key
    then script[n - 1 := Streaming(key, script[n - 1].text + text)]
    else script + [Streaming(key, text)]
  }

  function TakeText(v: Texts, f: Frame): Texts {
    match KindOf(f.event)
    case Report => v
    case Kept => Texts(v.script + [Shown(f)], Timeline.Apply(v.assembly, f))
    case Delta => Texts(ExtendScript(v.script, KeyOf(f.event), f.event.delta), Timeline.Apply(v.assembly, f))
  }

  function TextsOf(v: Texts, fs: seq<Frame>): Texts {
    if fs == [] then v else TakeText(TextsOf(v, fs[..|fs| - 1]), fs[|fs| - 1])
  }

  // ---- Tool activity ----

  /** One JSON patch operation on an activity (RFC 6902, sections 4.1 and 4.3). */
  function PatchOp(a: Activity, p: Patch): Option<Activity> {
    if (p.op == "add" || p.op == "replace") && p.path == "/progress" && p.value.Number? then
      Some(a.(progress := p.value.number))
    else if p.op == "add" && p.path == "/output/-" && p.value.Text? then
      Some(a.(output := a.output + [p.value.text]))
    else
      None
  }

  /** A whole patch, which applies entirely or not at all. */
  function Patched(a: Activity, patch: seq<Patch>): Option<Activity> {
    if patch == [] then Some(a)
    else
      match Patched(a, patch[..|patch| - 1])
      case None => None
      case Some(b) => PatchOp(b, patch[|patch| - 1])
  }

  function TakeReport(tools: map<string, Tool>, f: Frame): map<string, Tool> {
    match f.event
    case ActivitySnapshot(id, activity, display) => tools[id := Tool(activity, display)]
    case ActivityDelta(id, patch, display) =>
      if id in tools && Patched(tools[id].activity, patch).Some? then
        tools[id := Tool(Patched(tools[id].activity, patch).value,
                         if display.Some? then display else tools[id].display)]
      else tools
    case _ => tools
  }

  function ToolsOf(tools: map<string, Tool>, fs: seq<Frame>): map<string, Tool> {
    if fs == [] then tools else TakeReport(ToolsOf(tools, fs[..|fs| - 1]), fs[|fs| - 1])
  }

  function Start(seed: Assembly): Client {
    Client(Texts([], seed), map[])
  }

  /** What a client shows after taking more frames. */
  function Take(c: Client, fs: seq<Frame>): Client {
    Client(TextsOf(c.texts, fs), ToolsOf(c.tools, fs))
  }

  lemma {:induction false} TextsOfConcat(v: Texts, a: seq<Frame>, b: seq<Frame>)
    ensures TextsOf(v, a + b) == TextsOf(TextsOf(v, a), b)
  {
    hide TakeText;
    if b == [] {
      assert a + b == a;
    } else {
      TextsOfConcat(v, a, b[..|b| - 1]);
      assert (a + b)[..|a + b| - 1] == a + b[..|b| - 1];
    }
  }

  lemma {:induction false} ToolsOfConcat(tools: map<string, Tool>, a: seq<Frame>, b: seq<Frame>)
    ensures ToolsOf(tools, a + b) == ToolsOf(ToolsOf(tools, a), b)
  {
    if b == [] {
      assert a + b == a;
    } else {
      ToolsOfConcat(tools, a, b[..|b| - 1]);
      assert (a + b)[..|a + b| - 1] == a + b[..|b| - 1];
    }
  }

  lemma TakeConcat(c: Client, a: seq<Frame>, b: seq<Frame>)
    ensures Take(c, a + b) == Take(Take(c, a), b)
  {
    TextsOfConcat(c.texts, a, b);
    ToolsOfConcat(c.tools, a, b);
  }

  lemma TextsOfOne(v: Texts, f: Frame)
    ensures TextsOf(v, [f]) == TakeText(v, f)
  {
    hide TakeText;
    assert [f][..0] == [];
  }

  lemma {:induction false} TextsOfValid(v: Texts, fs: seq<Frame>)
    requires Timeline.Valid(v.assembly)
    ensures Timeline.Valid(TextsOf(v, fs).assembly)
  {
    hide Timeline.Apply, Timeline.Valid;
    if fs != [] {
      TextsOfValid(v, fs[..|fs| - 1]);
      ApplyValid(TextsOf(v, fs[..|fs| - 1]).assembly, fs[|fs| - 1]);
    }
  }

  // ---- Deltas in turn to one text apply as one ----

  ghost predicate TextReady(v: Texts, key: Key) {
    && Timeline.Valid(v.assembly)
    && Ready(v.assembly, key)
    && |v.script| > 0
    && v.script[|v.script| - 1].Streaming?
    && v.script[|v.script| - 1].key == key
  }

  lemma TakeTextReady(v: Texts, f: Frame)
    requires Timeline.Valid(v.assembly) && IsTextDelta(f.event)
    ensures TextReady(TakeText(v, f), KeyOf(f.event))
  {
    hide Timeline.Apply, Timeline.Valid;
    ApplyValid(v.assembly, f);
  }

  lemma ScriptJoins(script: seq<Item>, key: Key, x: string, y: string)
    ensures ExtendScript(ExtendScript(script, key, x), key, y) == ExtendScript(script, key, x + y)
  {
    var n := |script|;
    if n > 0 && script[n - 1].Streaming? && script[n - 1].key == key {
      assert (script[n - 1].text + x) + y == script[n - 1].text + (x + y);
    }
  }

  /** Deltas to the text being streamed join at the time of the later. */
  lemma TakeTextJoins(v: Texts, e1: Event, e2: Event, t1: nat, t2: nat)
    requires IsTextDelta(e1) && IsTextDelta(e2) && KeyOf(e1) == KeyOf(e2) && t1 <= t2
    requires TextReady(v, KeyOf(e1))
    ensures TakeText(TakeText(v, Frame(e1, t1)), Frame(e2, t2)) == TakeText(v, Frame(Joined(e1, e2), t2))
  {
    hide Timeline.Apply, Timeline.Valid;
    ScriptJoins(v.script, KeyOf(e1), e1.delta, e2.delta);
    ApplyJoins(v.assembly, e1, e2, t1, t2);
  }

  lemma TakeTextSplits(v: Texts, e1: Event, e2: Event, t: nat)
    requires IsTextDelta(e1) && IsTextDelta(e2) && KeyOf(e1) == KeyOf(e2)
    requires Timeline.Valid(v.assembly)
    ensures TakeText(v, Frame(Joined(e1, e2), t)) == TakeText(TakeText(v, Frame(e1, t)), Frame(e2, t))
  {
    hide Timeline.Apply, Timeline.Valid;
    ScriptJoins(v.script, KeyOf(e1), e1.delta, e2.delta);
    ApplySplits(v.assembly, e1, e2, t);
  }

  /** Of three deltas in turn, the first two may be sent as one at the time of the first. */
  lemma FirstTwoMerge(v: Texts, e1: Event, e2: Event, e3: Event, t1: nat, t2: nat, t3: nat)
    requires IsTextDelta(e1) && IsTextDelta(e2) && IsTextDelta(e3)
    requires KeyOf(e1) == KeyOf(e2) == KeyOf(e3) && t1 <= t2 <= t3
    requires Timeline.Valid(v.assembly)
    ensures TakeText(TakeText(TakeText(v, Frame(e1, t1)), Frame(e2, t2)), Frame(e3, t3))
         == TakeText(TakeText(v, Frame(Joined(e1, e2), t1)), Frame(e3, t3))
  {
    hide TakeText, TextReady, Timeline.Valid;
    var first := TakeText(v, Frame(e1, t1));
    TakeTextReady(v, Frame(e1, t1));
    TakeTextJoins(first, e2, e3, t2, t3);
    TakeTextSplits(v, e1, e2, t1);
    TakeTextJoins(first, e2, e3, t1, t3);
  }

  // ---- Merging a run of deltas ----

  function TextOf(fs: seq<Frame>): string {
    if fs == [] then ""
    else TextOf(fs[..|fs| - 1]) + (if IsTextDelta(fs[|fs| - 1].event) then fs[|fs| - 1].event.delta else "")
  }

  /** One frame for a run of deltas: the first's members, with each delta in turn. */
  function Merged(fs: seq<Frame>): Frame {
    if fs == [] then Frame(Other("", "", true), 0)
    else if !IsTextDelta(fs[0].event) then fs[0]
    else Frame(WithText(fs[0].event, TextOf(fs)), fs[0].at)
  }

  /** Deltas of one key, emitted in order. */
  ghost predicate IsRun(fs: seq<Frame>, key: Key) {
    && (forall i :: 0 <= i < |fs| ==> IsTextDelta(fs[i].event) && KeyOf(fs[i].event) == key)
    && (forall i, j :: 0 <= i <= j < |fs| ==> fs[i].at <= fs[j].at)
  }

  lemma MergedGrows(fs: seq<Frame>, k: nat, key: Key)
    requires IsRun(fs, key) && 1 <= k < |fs|
    ensures Merged(fs[..k + 1]).event == Joined(Merged(fs[..k]).event, fs[k].event)
    ensures Merged(fs[..k + 1]).at == fs[0].at && Merged(fs[..k]).at == fs[0].at
    ensures IsTextDelta(Merged(fs[..k]).event) && KeyOf(Merged(fs[..k]).event) == key
  {
    assert fs[..k + 1][..k] == fs[..k];
  }

  /** Merging all but the last of a run shows what the run does. */
  lemma {:induction false} RunMerges(v: Texts, fs: seq<Frame>, key: Key, k: nat)
    requires IsRun(fs, key) && 1 <= k < |fs|
    requires Timeline.Valid(v.assembly)
    ensures TextsOf(v, [Merged(fs[..k])] + fs[k..]) == TextsOf(v, fs)
  {
    hide Merged, TextsOf, TakeText, Timeline.Valid;
    if k == 1 {
      MergedOne(fs, key);
    } else {
      RunMerges(v, fs, key, k - 1);
      RunMergesNext(v, fs, key, k - 1);
    }
  }

  lemma MergedOne(fs: seq<Frame>, key: Key)
    requires IsRun(fs, key) && |fs| > 0
    ensures [Merged(fs[..1])] + fs[1..] == fs
  {
    assert fs[..1][..0] == [];
    assert TextOf(fs[..1]) == fs[0].event.delta;
  }

  lemma RunMergesNext(v: Texts, fs: seq<Frame>, key: Key, k: nat)
    requires IsRun(fs, key) && 1 <= k && k + 1 < |fs|
    requires Timeline.Valid(v.assembly)
    ensures TextsOf(v, [Merged(fs[..k])] + fs[k..]) == TextsOf(v, [Merged(fs[..k + 1])] + fs[k + 1..])
  {
    hide Merged, TextsOf, TakeText, Timeline.Valid;
    MergedGrows(fs, k, key);
    var m := Merged(fs[..k]);
    MergesBefore(v, m, fs[k], fs[k + 1], fs[k + 2..]);
    TailTwice(m, fs, k);
    TailOnce(Merged(fs[..k + 1]), fs, k + 1);
  }

  lemma TailOnce(m: Frame, fs: seq<Frame>, k: nat)
    requires k < |fs|
    ensures [m] + fs[k..] == [m, fs[k]] + fs[k + 1..]
  {}

  lemma TailTwice(m: Frame, fs: seq<Frame>, k: nat)
    requires k + 1 < |fs|
    ensures [m] + fs[k..] == [m, fs[k], fs[k + 1]] + fs[k + 2..]
  {}

  /** A frame and the delta after it may be sent as one, when another delta to the text follows. */
  lemma MergesBefore(v: Texts, x: Frame, y: Frame, z: Frame, rest: seq<Frame>)
    requires IsTextDelta(x.event) && IsTextDelta(y.event) && IsTextDelta(z.event)
    requires KeyOf(x.event) == KeyOf(y.event) == KeyOf(z.event) && x.at <= y.at <= z.at
    requires Timeline.Valid(v.assembly)
    ensures TextsOf(v, [x, y, z] + rest) == TextsOf(v, [Frame(Joined(x.event, y.event), x.at), z] + rest)
  {
    hide TextsOf, TakeText, Timeline.Valid;
    var merged := Frame(Joined(x.event, y.event), x.at);
    FirstTwoMerge(v, x.event, y.event, z.event, x.at, y.at, z.at);
    ThreeFrames(v, x, y, z);
    TwoFrames(v, merged, z);
    TextsOfConcat(v, [x, y, z], rest);
    TextsOfConcat(v, [merged, z], rest);
  }

  lemma TwoFrames(v: Texts, x: Frame, y: Frame)
    ensures TextsOf(v, [x, y]) == TakeText(TakeText(v, x), y)
  {
    hide TakeText;
    assert [x, y][..1] == [x];
    TextsOfOne(v, x);
  }

  lemma ThreeFrames(v: Texts, x: Frame, y: Frame, z: Frame)
    ensures TextsOf(v, [x, y, z]) == TakeText(TakeText(TakeText(v, x), y), z)
  {
    hide TakeText;
    assert [x, y, z][..2] == [x, y];
    TwoFrames(v, x, y);
  }

  // ---- A fold keeps what the texts show ----

  /** An entry labelled as its event is, which every entry of a log is. */
  predicate Labelled(e: Entry<Frame>) {
    e.kind == KindOf(e.data.event) && e.key == KeyOf(e.data.event)
  }

  ghost predicate AllLabelled(es: seq<Entry<Frame>>) {
    forall i :: 0 <= i < |es| ==> Labelled(es[i])
  }

  /** Events other than reports carry times that never go back. */
  ghost predicate Timely(es: seq<Entry<Frame>>) {
    forall i, j :: 0 <= i <= j < |es| && !es[i].kind.Report? && !es[j].kind.Report? ==> es[i].data.at <= es[j].data.at
  }

  ghost predicate MergesFrames(ops: Ops<Frame>) {
    forall fs :: ops.merge(fs) == Merged(fs)
  }

  /** The operations a stream folds its log with, and the tools it tracks. */
  ghost predicate FoldsFrames(ops: Ops<Frame>, tools: map<string, Tool>) {
    && MergesFrames(ops)
    && (forall id: string :: StandsAs(ops.activity(ActivityOf(id)), id, tools))
  }

  /** A tool's frame as a fold sends it: its activity as tracked, or none for one not tracked. */
  predicate StandsAs(now: Option<Frame>, id: string, tools: map<string, Tool>) {
    if id in tools
    then now.Some? && now.value.event == ActivitySnapshot(id, tools[id].activity, tools[id].display)
    else now.None?
  }

  /** A fold under way over labelled, timely entries. */
  ghost predicate Sound(st: Folding<Frame>) {
    && AllLabelled(st.checkpoint + st.run)
    && Timely(st.checkpoint + st.run)
    && (forall i :: 0 <= i < |st.run| ==> st.run[i].kind.Delta? && st.run[i].key == st.run[0].key)
  }

  lemma DatasConcat<T>(a: seq<Entry<T>>, b: seq<Entry<T>>)
    ensures Datas(a + b) == Datas(a) + Datas(b)
  {}

  lemma RunIsRun(st: Folding<Frame>)
    requires Sound(st) && |st.run| > 0
    ensures IsRun(Datas(st.run), st.run[0].key)
  {
    var all, c := st.checkpoint + st.run, |st.checkpoint|;
    forall i | 0 <= i < |st.run|
      ensures IsTextDelta(Datas(st.run)[i].event) && KeyOf(Datas(st.run)[i].event) == st.run[0].key
    {
      assert all[c + i] == st.run[i];
      assert Labelled(all[c + i]);
    }
    forall i, j | 0 <= i <= j < |st.run| ensures Datas(st.run)[i].at <= Datas(st.run)[j].at {
      assert all[c + i] == st.run[i] && all[c + j] == st.run[j];
    }
  }

  lemma FlushKeepsTexts(v: Texts, st: Folding<Frame>, ops: Ops<Frame>)
    requires Sound(st) && Timeline.Valid(v.assembly)
    requires MergesFrames(ops)
    ensures TextsOf(v, Datas(Flushed(st, ops).checkpoint)) == TextsOf(v, Datas(st.checkpoint + st.run))
  {
    hide TextsOf, Merged, Timeline.Valid, Timely, AllLabelled;
    var n := |st.run|;
    if n > 2 {
      RunIsRun(st);
      var run := Datas(st.run);
      var v1 := TextsOf(v, Datas(st.checkpoint));
      TextsOfValid(v, Datas(st.checkpoint));
      RunMerges(v1, run, st.run[0].key, n - 1);
      assert Datas(st.run[..n - 1]) == run[..n - 1];
      var tail := [Entry(ops.merge(run[..n - 1]), Delta, st.run[0].key), st.run[n - 1]];
      assert Flushed(st, ops).checkpoint == st.checkpoint + tail;
      assert Datas(tail) == [Merged(run[..n - 1])] + run[n - 1..];
      DatasConcat(st.checkpoint, tail);
      DatasConcat(st.checkpoint, st.run);
      TextsOfConcat(v, Datas(st.checkpoint), Datas(tail));
      TextsOfConcat(v, Datas(st.checkpoint), run);
    }
  }

  lemma FlushSound(st: Folding<Frame>, ops: Ops<Frame>)
    requires Sound(st)
    requires MergesFrames(ops)
    ensures Sound(Flushed(st, ops))
    ensures forall t: nat :: NotAfter(st.checkpoint + st.run, t) ==> NotAfter(Flushed(st, ops).checkpoint, t)
  {
    var n := |st.run|;
    if n > 2 {
      var all, c, out := st.checkpoint + st.run, |st.checkpoint|, Flushed(st, ops).checkpoint;
      RunIsRun(st);
      var merged := Merged(Datas(st.run[..n - 1]));
      assert merged.at == st.run[0].data.at && KeyOf(merged.event) == st.run[0].key && IsTextDelta(merged.event) by {
        assert IsTextDelta(Datas(st.run)[0].event) && Datas(st.run[..n - 1])[0] == Datas(st.run)[0];
      }
      // each entry kept is one the fold held, or the merged one at the time of the run's first
      forall i | 0 <= i < |out|
        ensures Labelled(out[i]) && out[i].data.at == all[Origin(i, c, n)].data.at && out[i].kind == all[Origin(i, c, n)].kind
      {
        assert Labelled(all[Origin(i, c, n)]);
      }
      forall i, j | 0 <= i <= j < |out| && !out[i].kind.Report? && !out[j].kind.Report?
        ensures out[i].data.at <= out[j].data.at
      {
        assert all[Origin(i, c, n)].data.at <= all[Origin(j, c, n)].data.at;
      }
      forall t: nat | NotAfter(all, t) ensures NotAfter(out, t) {
        forall i | 0 <= i < |out| && !out[i].kind.Report? ensures out[i].data.at <= t {
          assert !all[Origin(i, c, n)].kind.Report?;
        }
      }
    } else {
      assert Flushed(st, ops).checkpoint + Flushed(st, ops).run == st.checkpoint + st.run;
    }
  }

  /** Where an entry of a flushed checkpoint stood before the run's first deltas merged. */
  function Origin(i: nat, c: nat, n: nat): (k: nat)
    requires n > 2 && i < c + 2
    ensures k < c + n
  {
    if i <= c then i else c + n - 1
  }

  /** No event but a report is after a time. */
  ghost predicate NotAfter(es: seq<Entry<Frame>>, t: nat) {
    forall i :: 0 <= i < |es| && !es[i].kind.Report? ==> es[i].data.at <= t
  }

  /** Adding an entry labelled as its event is, no earlier than those before it. */
  lemma AppendSound(st: Folding<Frame>, e: Entry<Frame>)
    requires Sound(st) && st.run == [] && Labelled(e)
    requires !e.kind.Report? ==> NotAfter(st.checkpoint, e.data.at)
    ensures AllLabelled(st.checkpoint + [e]) && Timely(st.checkpoint + [e])
  {
    assert st.checkpoint + st.run == st.checkpoint;
  }

  /** Taking one entry into a fold shows what the entry does. */
  lemma TakenKeepsTexts(v: Texts, st: Folding<Frame>, e: Entry<Frame>, ops: Ops<Frame>, tools: map<string, Tool>)
    requires Sound(st) && Timeline.Valid(v.assembly) && Labelled(e) && FoldsFrames(ops, tools)
    requires !e.kind.Report? ==> NotAfter(st.checkpoint + st.run, e.data.at)
    ensures Sound(Taken(st, e, ops))
    ensures TextsOf(v, Datas(Taken(st, e, ops).checkpoint + Taken(st, e, ops).run))
         == TakeText(TextsOf(v, Datas(st.checkpoint + st.run)), e.data)
  {
    hide TextsOf, TakeText, Timeline.Valid, Begun, MergesFrames;
    if Joins(st, e, ops) {
      AppendedTexts(v, st.checkpoint + st.run, e);
      JoinSound(st, e, ops);
    } else {
      FlushSound(st, ops);
      FlushKeepsTexts(v, st, ops);
      BegunKeepsTexts(v, Flushed(st, ops), e, ops, tools);
    }
  }

  lemma JoinSound(st: Folding<Frame>, e: Entry<Frame>, ops: Ops<Frame>)
    requires Sound(st) && Labelled(e) && NotAfter(st.checkpoint + st.run, e.data.at) && Joins(st, e, ops)
    ensures Sound(Taken(st, e, ops))
    ensures Taken(st, e, ops).checkpoint + Taken(st, e, ops).run == (st.checkpoint + st.run) + [e]
  {
    var st' := Taken(st, e, ops);
    assert st'.checkpoint + st'.run == (st.checkpoint + st.run) + [e];
  }

  lemma BegunKeepsTexts(v: Texts, st: Folding<Frame>, e: Entry<Frame>, ops: Ops<Frame>, tools: map<string, Tool>)
    requires Sound(st) && st.run == [] && Labelled(e) && FoldsFrames(ops, tools)
    requires !e.kind.Report? ==> NotAfter(st.checkpoint, e.data.at)
    ensures Sound(Begun(st, e, ops))
    ensures TextsOf(v, Datas(Begun(st, e, ops).checkpoint + Begun(st, e, ops).run))
         == TakeText(TextsOf(v, Datas(st.checkpoint)), e.data)
  {
    var st' := Begun(st, e, ops);
    assert st.checkpoint + st.run == st.checkpoint;
    if e.kind.Report? {
      var now := ops.activity(e.key);
      assert StandsAs(now, e.data.event.messageId, tools);
      if e.key !in st.placed && now.Some? {
        var placed := Entry(now.value, Report, e.key);
        AppendSound(st, placed);
        AppendedTexts(v, st.checkpoint, placed);
        assert st'.checkpoint + st'.run == st.checkpoint + [placed];
      } else {
        assert st'.checkpoint + st'.run == st.checkpoint;
      }
    } else {
      AppendSound(st, e);
      AppendedTexts(v, st.checkpoint, e);
      assert st'.checkpoint + st'.run == st.checkpoint + [e];
    }
  }

  lemma AppendedTexts(v: Texts, es: seq<Entry<Frame>>, e: Entry<Frame>)
    ensures TextsOf(v, Datas(es + [e])) == TakeText(TextsOf(v, Datas(es)), e.data)
  {
    hide TakeText;
    var ds := Datas(es + [e]);
    assert ds[..|ds| - 1] == Datas(es);
  }

  lemma TakenNotAfter(st: Folding<Frame>, e: Entry<Frame>, ops: Ops<Frame>, t: nat)
    requires Sound(st) && NotAfter(st.checkpoint + st.run, t) && (!e.kind.Report? ==> e.data.at <= t)
    requires MergesFrames(ops)
    ensures NotAfter(Taken(st, e, ops).checkpoint + Taken(st, e, ops).run, t)
  {
    if !Joins(st, e, ops) {
      FlushSound(st, ops);
      assert NotAfter(Flushed(st, ops).checkpoint, t);
    } else {
      assert st.checkpoint + (st.run + [e]) == (st.checkpoint + st.run) + [e];
    }
  }

  /** Every entry of a fold shows in the checkpoint and the run as it did in the log. */
  lemma {:induction false} FoldedToKeepsTexts(v: Texts, es: seq<Entry<Frame>>, ops: Ops<Frame>, tools: map<string, Tool>)
    requires AllLabelled(es) && Timely(es) && Timeline.Valid(v.assembly) && FoldsFrames(ops, tools)
    ensures var st := FoldedTo(es, ops);
            Sound(st) && TextsOf(v, Datas(st.checkpoint + st.run)) == TextsOf(v, Datas(es))
    ensures var st := FoldedTo(es, ops);
            forall t: nat :: NotAfter(es, t) ==> NotAfter(st.checkpoint + st.run, t)
  {
    hide TextsOf, TakeText, Timeline.Valid, Taken, MergesFrames;
    var st := FoldedTo(es, ops);
    if es == [] {
      assert Datas(st.checkpoint + st.run) == Datas(es);
    } else {
      var before, e := es[..|es| - 1], es[|es| - 1];
      FoldedToKeepsTexts(v, before, ops, tools);
      var st0 := FoldedTo(before, ops);
      if !e.kind.Report? {
        assert NotAfter(before, e.data.at);
      }
      TakenKeepsTexts(v, st0, e, ops, tools);
      assert before + [e] == es;
      AppendedTexts(v, before, e);
      forall t: nat | NotAfter(es, t) ensures NotAfter(st.checkpoint + st.run, t) {
        assert NotAfter(before, t);
        TakenNotAfter(st0, e, ops, t);
      }
    }
  }

  lemma FoldKeepsTexts(v: Texts, es: seq<Entry<Frame>>, ops: Ops<Frame>, tools: map<string, Tool>)
    requires AllLabelled(es) && Timely(es) && Timeline.Valid(v.assembly) && FoldsFrames(ops, tools)
    ensures TextsOf(v, Datas(Folded(es, ops).checkpoint)) == TextsOf(v, Datas(es))
    ensures AllLabelled(Folded(es, ops).checkpoint) && Timely(Folded(es, ops).checkpoint)
    ensures forall t: nat :: NotAfter(es, t) ==> NotAfter(Folded(es, ops).checkpoint, t)
  {
    hide TextsOf, TakeText, Timeline.Valid, MergesFrames;
    FoldedToKeepsTexts(v, es, ops, tools);
    var st := FoldedTo(es, ops);
    FlushSound(st, ops);
    FlushKeepsTexts(v, st, ops);
    assert Folded(es, ops).checkpoint + Folded(es, ops).run == Folded(es, ops).checkpoint;
  }

  // ---- A fold keeps each tool's activity ----

  /** The tools whose reports entries hold. */
  function Reported(es: seq<Entry<Frame>>): set<Key> {
    set i | 0 <= i < |es| && es[i].kind.Report? :: es[i].key
  }

  function Placed(tools: map<string, Tool>, keys: set<Key>): map<string, Tool> {
    map id | id in tools && ActivityOf(id) in keys :: tools[id]
  }

  lemma AppendedTools(es: seq<Entry<Frame>>, e: Entry<Frame>)
    ensures ToolsOf(map[], Datas(es + [e])) == TakeReport(ToolsOf(map[], Datas(es)), e.data)
  {
    var ds := Datas(es + [e]);
    assert ds[..|ds| - 1] == Datas(es);
  }

  lemma {:induction false} DeltasReportNothing(es: seq<Entry<Frame>>, run: seq<Entry<Frame>>)
    requires forall i :: 0 <= i < |run| ==> !IsReport(run[i].data.event)
    ensures ToolsOf(map[], Datas(es + run)) == ToolsOf(map[], Datas(es))
  {
    if run == [] {
      assert es + run == es;
    } else {
      DeltasReportNothing(es, run[..|run| - 1]);
      assert es + run == (es + run[..|run| - 1]) + [run[|run| - 1]];
      AppendedTools(es + run[..|run| - 1], run[|run| - 1]);
    }
  }

  predicate IsReport(e: Event) {
    KindOf(e) == Report
  }

  lemma FlushKeepsTools(st: Folding<Frame>, ops: Ops<Frame>)
    requires Sound(st)
    requires MergesFrames(ops)
    ensures ToolsOf(map[], Datas(Flushed(st, ops).checkpoint)) == ToolsOf(map[], Datas(st.checkpoint))
    ensures ToolsOf(map[], Datas(st.checkpoint + st.run)) == ToolsOf(map[], Datas(st.checkpoint))
  {
    hide ToolsOf, Timely;
    forall i | 0 <= i < |st.run| ensures !IsReport(st.run[i].data.event) {
      assert (st.checkpoint + st.run)[|st.checkpoint| + i] == st.run[i];
    }
    DeltasReportNothing(st.checkpoint, st.run);
    var n := |st.run|;
    if n > 2 {
      RunIsRun(st);
      var merged := Entry(ops.merge(Datas(st.run[..n - 1])), Delta, st.run[0].key);
      assert IsTextDelta(merged.data.event) by {
        assert IsTextDelta(Datas(st.run)[0].event) && Datas(st.run[..n - 1])[0] == Datas(st.run)[0];
      }
      DeltasReportNothing(st.checkpoint, [merged, st.run[n - 1]]);
      assert st.checkpoint + [merged] + [st.run[n - 1]] == st.checkpoint + [merged, st.run[n - 1]];
    }
  }

  lemma {:induction false} FoldedToKeepsTools(v: Texts, es: seq<Entry<Frame>>, ops: Ops<Frame>, tools: map<string, Tool>)
    requires AllLabelled(es) && Timely(es) && Timeline.Valid(v.assembly) && FoldsFrames(ops, tools)
    ensures var st := FoldedTo(es, ops);
            st.placed == Reported(es) && ToolsOf(map[], Datas(st.checkpoint)) == Placed(tools, st.placed)
  {
    hide TextsOf, TakeReport, Timeline.Valid, Flushed, MergesFrames;
    if es == [] {
      assert Placed(tools, {}) == map[];
    } else {
      var before, e := es[..|es| - 1], es[|es| - 1];
      FoldedToKeepsTexts(v, before, ops, tools);
      FoldedToKeepsTools(v, before, ops, tools);
      var st0 := FoldedTo(before, ops);
      FlushKeepsTools(st0, ops);
      ReportedGrows(before, e);
      assert before + [e] == es;
      if !Joins(st0, e, ops) {
        TakenKeepsTools(st0, e, ops, tools);
      }
    }
  }

  lemma ReportedGrows(es: seq<Entry<Frame>>, e: Entry<Frame>)
    ensures Reported(es + [e]) == Reported(es) + (if e.kind.Report? then {e.key} else {})
  {
    var all := es + [e];
    forall k | k in Reported(es) ensures k in Reported(all) {
      var i :| 0 <= i < |es| && es[i].kind.Report? && es[i].key == k;
      assert all[i] == es[i];
    }
    if e.kind.Report? {
      assert all[|es|] == e;
      assert e.key in Reported(all);
    }
  }

  lemma TakenKeepsTools(st: Folding<Frame>, e: Entry<Frame>, ops: Ops<Frame>, tools: map<string, Tool>)
    requires Sound(st) && Labelled(e) && FoldsFrames(ops, tools) && !Joins(st, e, ops)
    requires ToolsOf(map[], Datas(st.checkpoint)) == Placed(tools, st.placed)
    ensures ToolsOf(map[], Datas(Taken(st, e, ops).checkpoint)) == Placed(tools, Taken(st, e, ops).placed)
  {
    FlushKeepsTools(st, ops);
    BegunKeepsTools(Flushed(st, ops), e, ops, tools);
  }

  lemma BegunKeepsTools(st: Folding<Frame>, e: Entry<Frame>, ops: Ops<Frame>, tools: map<string, Tool>)
    requires Labelled(e) && FoldsFrames(ops, tools)
    requires ToolsOf(map[], Datas(st.checkpoint)) == Placed(tools, st.placed)
    ensures ToolsOf(map[], Datas(Begun(st, e, ops).checkpoint)) == Placed(tools, Begun(st, e, ops).placed)
  {
    match e.kind
    case Delta =>
    case Kept => AppendedTools(st.checkpoint, e);
    case Report =>
      var id := e.data.event.messageId;
      var now := ops.activity(ActivityOf(id));
      assert StandsAs(now, id, tools);
      if e.key !in st.placed && now.Some? {
        AppendedTools(st.checkpoint, Entry(now.value, Report, e.key));
        PlacedGrows(tools, st.placed, id);
      } else {
        PlacedSame(tools, st.placed, id);
      }
  }

  lemma PlacedGrows(tools: map<string, Tool>, keys: set<Key>, id: string)
    requires id in tools
    ensures Placed(tools, keys)[id := tools[id]] == Placed(tools, keys + {ActivityOf(id)})
  {}

  lemma PlacedSame(tools: map<string, Tool>, keys: set<Key>, id: string)
    requires ActivityOf(id) in keys || id !in tools
    ensures Placed(tools, keys + {ActivityOf(id)}) == Placed(tools, keys)
  {}

  lemma {:induction false} ToolsAreReported(es: seq<Entry<Frame>>)
    requires AllLabelled(es)
    ensures forall id :: id in ToolsOf(map[], Datas(es)) ==> ActivityOf(id) in Reported(es)
  {
    if es != [] {
      var before, e := es[..|es| - 1], es[|es| - 1];
      ToolsAreReported(before);
      ReportedGrows(before, e);
      assert before + [e] == es;
      AppendedTools(before, e);
    }
  }

  /**
   A fold keeps what a client shows: from nothing, the checkpoint leaves it with
   the events in order, every text, every assembled message and every tool's
   activity that the folded frames leave it with.
   */
  lemma FoldKeepsMeaning(seed: Assembly, es: seq<Entry<Frame>>, ops: Ops<Frame>)
    requires AllLabelled(es) && Timely(es) && Timeline.Valid(seed)
    requires FoldsFrames(ops, ToolsOf(map[], Datas(es)))
    ensures Take(Start(seed), Datas(Folded(es, ops).checkpoint)) == Take(Start(seed), Datas(es))
    ensures AllLabelled(Folded(es, ops).checkpoint) && Timely(Folded(es, ops).checkpoint)
    ensures forall t: nat :: NotAfter(es, t) ==> NotAfter(Folded(es, ops).checkpoint, t)
  {
    hide TextsOf, TakeReport, Timeline.Valid, MergesFrames, Timely, AllLabelled, FoldedTo, Flushed;
    var tools, v := ToolsOf(map[], Datas(es)), Texts([], seed);
    FoldKeepsTexts(v, es, ops, tools);
    FoldedToKeepsTools(v, es, ops, tools);
    FoldedToKeepsTexts(v, es, ops, tools);
    FlushKeepsTools(FoldedTo(es, ops), ops);
    ToolsAreReported(es);
    assert Placed(tools, Reported(es)) == tools;
  }
}
