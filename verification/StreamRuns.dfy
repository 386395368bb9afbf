/**
 Whole runs of a stream: whatever is emitted, however long deltas are held and
 whenever the log is folded, the frames are the events with only adjacent deltas
 joined, and the log shows a new client what every event would have.
 */
module StreamRuns {
  import opened Options
  import opened Events
  import opened RunLog
  import opened Timeline
  import opened Checkpoint
  import opened Streaming

  /** What happened: the frames appended, and the events emitted, grouped as they were framed. */
  datatype History = History(framed: seq<Frame>, groups: seq<seq<Frame>>, lastAt: nat, begun: bool, finished: bool)

  datatype Run = Run(s: State, h: History)

  function Opening(budget: nat): Run {
    Run(Init(budget), History([], [], 0, false, false))
  }

  function Held(s: State): seq<Frame> {
    if s.pending.Some? && IsTextDelta(s.pending.value.first) && !s.log.closed then [PendingFrame(s.pending.value)] else []
  }

  function Flatten(groups: seq<seq<Frame>>): seq<Frame> {
    if groups == [] then [] else Flatten(groups[..|groups| - 1]) + groups[|groups| - 1]
  }

  /** The frame a group of deltas leaves as: the first's members, every text, the last's time. */
  function JoinGroup(g: seq<Frame>): Frame
    requires |g| > 0
  {
    if |g| == 1 || !IsTextDelta(g[0].event) then g[0]
    else Frame(WithText(g[0].event, TextOf(g)), g[|g| - 1].at)
  }

  /** Groups of more than one event are deltas in turn to one target. */
  ghost predicate IsGroup(g: seq<Frame>) {
    |g| > 0 && (|g| > 1 ==> IsRun(g, KeyOf(g[0].event)))
  }

  /** The history a step adds: what it frames, and the event it emits in a group of its own or joined to the last. */
  function Remember(h: History, s: State, a: Action): History {
    if s.log.closed then h
    else
      match a
      case Emit(f, within) =>
        if JoinsPending(s, f.event) && |h.groups| > 0 then
          h.(groups := h.groups[|h.groups| - 1 := h.groups[|h.groups| - 1] + [f]], lastAt := f.at)
        else
          var framed := h.framed + Held(s);
          if IsTextDelta(f.event) && within && KeyOf(f.event) == AfterPending(s) then
            h.(framed := framed, groups := h.groups + [[f]], lastAt := f.at)
          else if Encodes(f.event) then
            h.(framed := framed + [f], groups := h.groups + [[f]], lastAt := f.at)
          else
            h.(framed := framed, lastAt := f.at)
      case Fire => h.(framed := h.framed + Held(s))
      case Begin(_) => h.(begun := true)
      case Finish => h.(framed := h.framed + Held(s), finished := true)
      case Close => h
  }

  /** What the log's last frame extends once the held deltas are framed. */
  function AfterPending(s: State): Key {
    if s.pending.Some? then KeyOfPending(s.pending.value) else s.lastDelta
  }

  /** The steps of a run: times never go back, and a reply begins once, before any text. */
  ghost predicate Allowed(r: Run, a: Action, seed: Assembly) {
    match a
    case Emit(f, _) => WellFormed(f.event) && r.h.lastAt <= f.at
    case Begin(start) =>
      && start == seed && !r.h.begun && !r.h.finished && r.s.pending.None? && r.s.lastDelta == NoKey
      && forall i :: 0 <= i < |r.h.framed| ==> r.h.framed[i].event.Other?
    case Close => r.s.pending.None?
    case _ => true
  }

  function Next(r: Run, a: Action, env: Env, now: nat): (r': Run)
    requires Sane(r.s)
    ensures Sane(r'.s)
  {
    Run(Step(r.s, a, env, now), Remember(r.h, r.s, a))
  }

  // ---- Assembling ----

  function Assembled(a: Assembly, fs: seq<Frame>): Assembly {
    if fs == [] then a else Timeline.Apply(Assembled(a, fs[..|fs| - 1]), fs[|fs| - 1])
  }

  lemma {:induction false} AssembledValid(a: Assembly, fs: seq<Frame>)
    requires Timeline.Valid(a)
    ensures Timeline.Valid(Assembled(a, fs))
  {
    hide Timeline.Apply, Timeline.Valid;
    if fs != [] {
      AssembledValid(a, fs[..|fs| - 1]);
      ApplyValid(Assembled(a, fs[..|fs| - 1]), fs[|fs| - 1]);
    }
  }

  lemma {:induction false} OthersAssembleNothing(a: Assembly, fs: seq<Frame>)
    requires forall i :: 0 <= i < |fs| ==> fs[i].event.Other?
    ensures Assembled(a, fs) == a
  {
    if fs != [] {
      OthersAssembleNothing(a, fs[..|fs| - 1]);
    }
  }

  // ---- The log holds what was framed ----

  ghost predicate Logged(log: Log<Frame>, framed: seq<Frame>, seed: Assembly) {
    && Sent(log) == |framed|
    && Datas(log.frames) == framed[log.base..]
    && AllLabelled(log.checkpoint + log.frames)
    && Timely(log.checkpoint + log.frames)
    && Take(Start(seed), Datas(log.checkpoint)) == Take(Start(seed), framed[..log.base])
  }

  ghost predicate Following(s: State, h: History, seed: Assembly) {
    && (!h.finished ==> s.tools == ToolsOf(map[], h.framed))
    && (s.folding ==> h.begun && !h.finished)
    && (s.folding ==> s.observed == Assembled(seed, h.framed))
  }

  ghost predicate LogNotAfter(log: Log<Frame>, t: nat) {
    NotAfter(log.checkpoint + log.frames, t)
  }

  /** A follower behind the checkpoint is shown every frame. */
  lemma LoggedShowsAll(log: Log<Frame>, framed: seq<Frame>, seed: Assembly)
    requires Logged(log, framed, seed)
    ensures Take(Start(seed), Datas(log.checkpoint + log.frames)) == Take(Start(seed), framed)
  {
    hide Take, Timely, AllLabelled;
    DatasConcat(log.checkpoint, log.frames);
    TakeConcat(Start(seed), Datas(log.checkpoint), Datas(log.frames));
    TakeConcat(Start(seed), framed[..log.base], framed[log.base..]);
    assert framed[..log.base] + framed[log.base..] == framed;
  }

  lemma GrowLogs(log: Log<Frame>, framed: seq<Frame>, seed: Assembly, f: Frame, ops: Ops<Frame>)
    requires Logged(log, framed, seed) && !log.closed && (KindOf(f.event) != Report ==> LogNotAfter(log, f.at))
    ensures Logged(Grown(log, EntryOf(f), ops), framed + [f], seed)
    ensures forall t: nat :: LogNotAfter(log, t) && f.at <= t ==> LogNotAfter(Grown(log, EntryOf(f), ops), t)
  {
    hide Take;
    var all, log' := log.checkpoint + log.frames, Grown(log, EntryOf(f), ops);
    assert log'.checkpoint + log'.frames == all + [EntryOf(f)];
    assert (framed + [f])[..log.base] == framed[..log.base];
    assert (framed + [f])[log.base..] == framed[log.base..] + [f];
  }

  lemma FoldLogs(log: Log<Frame>, framed: seq<Frame>, seed: Assembly, ops: Ops<Frame>)
    requires Logged(log, framed, seed) && !log.closed && Timeline.Valid(seed)
    requires FoldsFrames(ops, ToolsOf(map[], framed))
    ensures Logged(FoldedLog(log, ops), framed, seed)
    ensures forall t: nat :: LogNotAfter(log, t) ==> LogNotAfter(FoldedLog(log, ops), t)
  {
    hide TextsOf, ToolsOf, Folded, FoldsFrames, Timely, AllLabelled, Timeline.Valid;
    var all, log' := log.checkpoint + log.frames, FoldedLog(log, ops);
    LoggedShowsAll(log, framed, seed);
    FoldKeepsMeaning(seed, all, ops);
    assert log'.checkpoint + log'.frames == Folded(all, ops).checkpoint;
    assert framed[..|framed|] == framed;
  }

  /** Writing a frame appends it to what was framed, whether or not the log is then folded. */
  lemma WriteLogs(s: State, h: History, seed: Assembly, f: Frame, env: Env, now: nat)
    requires Logged(s.log, h.framed, seed) && Following(s, h, seed) && !s.log.closed && Timeline.Valid(seed)
    requires WellFormed(f.event) && Encodes(f.event) && (KindOf(f.event) != Report ==> LogNotAfter(s.log, f.at))
    ensures Logged(Written(s, f, env, now).log, h.framed + [f], seed)
    ensures Following(Written(s, f, env, now), h.(framed := h.framed + [f]), seed)
    ensures forall t: nat :: LogNotAfter(s.log, t) && f.at <= t ==> LogNotAfter(Written(s, f, env, now).log, t)
  {
    hide Timeline.Valid, Logged, LogNotAfter, FoldedLog, Timeline.Apply, FoldsFrames, TakeReport, Tracked;
    var tools := Tracked(s.tools, f.event);
    var ops := FoldOps(env, tools, now);
    var grown := Grown(s.log, EntryOf(f), ops);
    assert (h.framed + [f])[..|h.framed|] == h.framed;
    TrackedIsShown(s.tools, f);
    GrowLogs(s.log, h.framed, seed, f, ops);
    if OverBudget(grown) && s.folding {
      FoldOpsFold(env, tools, now);
      assert tools == ToolsOf(map[], h.framed + [f]);
      FoldLogs(grown, h.framed + [f], seed, ops);
    }
  }

  // ---- Held deltas join the frame they leave as ----

  /** Frames end with a delta to a text, which the next delta to it extends. */
  predicate Extends(framed: seq<Frame>, key: Key) {
    && |framed| > 0
    && IsTextDelta(framed[|framed| - 1].event)
    && KeyOf(framed[|framed| - 1].event) == key
  }

  lemma AppendTake(c: Client, a: Assembly, fs: seq<Frame>, f: Frame)
    ensures Take(c, fs + [f]) == Client(TakeText(TextsOf(c.texts, fs), f), TakeReport(ToolsOf(c.tools, fs), f))
    ensures Assembled(a, fs + [f]) == Timeline.Apply(Assembled(a, fs), f)
  {
    hide Timeline.Apply, TakeText, TakeReport;
    assert (fs + [f])[..|fs|] == fs;
  }

  /** A delta joined to the one before it shows what both do, when a delta to their text came before. */
  lemma JoinShowsBoth(seed: Assembly, framed: seq<Frame>, p: Frame, f: Frame)
    requires Timeline.Valid(seed) && IsTextDelta(p.event) && IsTextDelta(f.event)
    requires KeyOf(p.event) == KeyOf(f.event) && p.at <= f.at && Extends(framed, KeyOf(p.event))
    ensures Take(Start(seed), framed + [Frame(Joined(p.event, f.event), f.at)]) == Take(Start(seed), framed + [p] + [f])
    ensures Assembled(seed, framed + [Frame(Joined(p.event, f.event), f.at)]) == Assembled(seed, framed + [p] + [f])
  {
    hide Timeline.Apply, Timeline.Valid, Take;
    var c, before, x := Start(seed), framed[..|framed| - 1], framed[|framed| - 1];
    var joined := Frame(Joined(p.event, f.event), f.at);
    AppendTake(c, seed, framed, joined);
    AppendTake(c, seed, framed, p);
    AppendTake(c, seed, framed + [p], f);
    TextsOfValid(c.texts, before);
    AssembledValid(seed, before);
    TakeTextReady(TextsOf(c.texts, before), x);
    ApplyValid(Assembled(seed, before), x);
    TakeTextJoins(TextsOf(c.texts, framed), p.event, f.event, p.at, f.at);
    ApplyJoins(Assembled(seed, framed), p.event, f.event, p.at, f.at);
  }

  lemma FlattenGrows(groups: seq<seq<Frame>>, f: Frame)
    ensures Flatten(groups + [[f]]) == Flatten(groups) + [f]
    ensures |groups| > 0 ==> Flatten(groups[|groups| - 1 := groups[|groups| - 1] + [f]]) == Flatten(groups) + [f]
  {
    assert (groups + [[f]])[..|groups|] == groups;
    if |groups| > 0 {
      var n := |groups| - 1;
      assert groups[n := groups[n] + [f]][..n] == groups[..n];
      assert Flatten(groups[..n]) + (groups[n] + [f]) == (Flatten(groups[..n]) + groups[n]) + [f];
    }
  }

  lemma JoinGroupGrows(g: seq<Frame>, f: Frame)
    requires IsGroup(g) && IsTextDelta(g[0].event) && IsTextDelta(f.event)
    requires KeyOf(g[0].event) == KeyOf(f.event) && JoinGroup(g).at <= f.at
    ensures IsGroup(g + [f])
    ensures JoinGroup(g + [f]) == Frame(Joined(JoinGroup(g).event, f.event), f.at)
  {
    var g' := g + [f];
    assert g'[..|g|] == g;
    if |g| == 1 {
      assert g[..0] == [];
      assert TextOf(g) == g[0].event.delta;
    }
    assert IsRun(g', KeyOf(g[0].event)) by {
      forall i, j | 0 <= i <= j < |g'| ensures g'[i].at <= g'[j].at {
        if j == |g| && i < |g| {
          assert g[i].at <= g[|g| - 1].at;
        }
      }
    }
  }

  ghost predicate Grouped(framed: seq<Frame>, groups: seq<seq<Frame>>) {
    && |framed| == |groups|
    && forall i :: 0 <= i < |groups| ==> IsGroup(groups[i]) && framed[i] == JoinGroup(groups[i])
  }

  /** The frames so far, with the deltas held back, are the events with adjacent deltas joined. */
  ghost predicate Coalesced(framed: seq<Frame>, groups: seq<seq<Frame>>, seed: Assembly) {
    && Grouped(framed, groups)
    && Take(Start(seed), framed) == Take(Start(seed), Flatten(groups))
    && Assembled(seed, framed) == Assembled(seed, Flatten(groups))
  }

  ghost predicate Queued(s: State, h: History) {
    && (s.lastDelta != NoKey ==> Extends(h.framed, s.lastDelta))
    && (s.pending.Some? ==> Extends(h.framed, KeyOfPending(s.pending.value)) && s.pending.value.at <= h.lastAt)
    && LogNotAfter(s.log, if s.pending.Some? then s.pending.value.at else h.lastAt)
  }

  ghost predicate Inv(r: Run, seed: Assembly) {
    && Sane(r.s)
    && Timeline.Valid(seed)
    && Logged(r.s.log, r.h.framed, seed)
    && (!r.s.log.closed ==>
          && Following(r.s, r.h, seed)
          && Coalesced(r.h.framed + Held(r.s), r.h.groups, seed)
          && Queued(r.s, r.h))
  }

  lemma AppendGrouped(framed: seq<Frame>, groups: seq<seq<Frame>>, f: Frame)
    requires Grouped(framed, groups)
    ensures Grouped(framed + [f], groups + [[f]])
  {
    forall i | 0 <= i < |groups| ensures IsGroup(groups[i]) && framed[i] == JoinGroup(groups[i]) {}
  }

  lemma AppendCoalesced(framed: seq<Frame>, groups: seq<seq<Frame>>, seed: Assembly, f: Frame)
    requires Coalesced(framed, groups, seed)
    ensures Coalesced(framed + [f], groups + [[f]], seed)
  {
    hide Grouped, TextsOf, ToolsOf, TakeText, TakeReport, Timeline.Apply;
    AppendGrouped(framed, groups, f);
    FlattenGrows(groups, f);
    AppendTake(Start(seed), seed, framed, f);
    AppendTake(Start(seed), seed, Flatten(groups), f);
  }

  lemma JoinCoalesced(framed: seq<Frame>, p: Frame, groups: seq<seq<Frame>>, seed: Assembly, f: Frame)
    requires Coalesced(framed + [p], groups, seed) && Timeline.Valid(seed)
    requires IsTextDelta(p.event) && IsTextDelta(f.event)
    requires KeyOf(p.event) == KeyOf(f.event) && p.at <= f.at && Extends(framed, KeyOf(p.event))
    ensures |groups| > 0
    ensures Coalesced(framed + [Frame(Joined(p.event, f.event), f.at)], groups[|groups| - 1 := groups[|groups| - 1] + [f]], seed)
  {
    hide Grouped, TextsOf, ToolsOf, TakeText, TakeReport, Timeline.Apply, Timeline.Valid;
    JoinGrouped(framed, p, groups, f);
    FlattenGrows(groups, f);
    JoinShowsBoth(seed, framed, p, f);
    AppendTake(Start(seed), seed, framed + [p], f);
    AppendTake(Start(seed), seed, Flatten(groups), f);
  }

  lemma JoinGrouped(framed: seq<Frame>, p: Frame, groups: seq<seq<Frame>>, f: Frame)
    requires Grouped(framed + [p], groups)
    requires IsTextDelta(p.event) && IsTextDelta(f.event) && KeyOf(p.event) == KeyOf(f.event) && p.at <= f.at
    ensures |groups| > 0
    ensures Grouped(framed + [Frame(Joined(p.event, f.event), f.at)], groups[|groups| - 1 := groups[|groups| - 1] + [f]])
  {
    hide KeyOf;
    var n := |groups| - 1;
    assert (framed + [p])[n] == p == JoinGroup(groups[n]);
    JoinGroupGrows(groups[n], f);
    forall i | 0 <= i < n ensures IsGroup(groups[i]) && framed[i] == JoinGroup(groups[i]) {
      assert (framed + [p])[i] == framed[i];
    }
  }

  /** Framing the held deltas appends them to the frames and leaves the events as they were. */
  lemma PendingFramedInv(r: Run, seed: Assembly, env: Env, now: nat)
    requires Inv(r, seed) && !r.s.log.closed
    ensures var s', h' := PendingFramed(r.s, env, now), r.h.(framed := r.h.framed + Held(r.s));
            Inv(Run(s', h'), seed) && s'.pending.None? && !s'.log.closed && s'.lastDelta == AfterPending(r.s)
            && s'.folding == r.s.folding && Held(s') == []
  {
    hide Take, Timeline.Valid, Coalesced, Logged, Written;
    if r.s.pending.Some? {
      var p := PendingFrame(r.s.pending.value);
      var s0 := r.s.(pending := None);
      assert Logged(s0.log, r.h.framed, seed) && Following(s0, r.h, seed);
      assert LogNotAfter(s0.log, p.at);
      WriteLogs(s0, r.h, seed, p, env, now);
      WrittenShape(s0, p, env, now);
      var s', h' := PendingFramed(r.s, env, now), r.h.(framed := r.h.framed + Held(r.s));
      assert LogNotAfter(s0.log, h'.lastAt);
      assert h'.framed + Held(s') == r.h.framed + Held(r.s);
    } else {
      assert r.h.framed + Held(r.s) == r.h.framed;
    }
  }

  lemma EmitWritten(r: Run, seed: Assembly, f: Frame, env: Env, now: nat)
    requires Inv(r, seed) && !r.s.log.closed && r.s.pending.None? && WellFormed(f.event) && r.h.lastAt <= f.at
    ensures Inv(Run(Written(r.s, f, env, now),
                    if Encodes(f.event)
                    then r.h.(framed := r.h.framed + [f], groups := r.h.groups + [[f]], lastAt := f.at)
                    else r.h.(lastAt := f.at)), seed)
  {
    hide Logged, Coalesced, Timeline.Valid, Written;
    assert r.h.framed + Held(r.s) == r.h.framed;
    if Encodes(f.event) {
      EmitEncoded(r, seed, f, env, now);
    } else {
      WrittenUnencoded(r.s, f, env, now);
      assert LogNotAfter(r.s.log, f.at);
    }
  }

  lemma WrittenUnencoded(s: State, f: Frame, env: Env, now: nat)
    requires !Encodes(f.event)
    ensures Written(s, f, env, now) == s
  {}

  lemma EmitEncoded(r: Run, seed: Assembly, f: Frame, env: Env, now: nat)
    requires Inv(r, seed) && !r.s.log.closed && r.s.pending.None? && WellFormed(f.event) && r.h.lastAt <= f.at
    requires Encodes(f.event) && Coalesced(r.h.framed, r.h.groups, seed)
    ensures Inv(Run(Written(r.s, f, env, now),
                    r.h.(framed := r.h.framed + [f], groups := r.h.groups + [[f]], lastAt := f.at)), seed)
  {
    hide Logged, Following, Coalesced, Timeline.Valid, Written;
    assert LogNotAfter(r.s.log, f.at);
    WriteLogs(r.s, r.h, seed, f, env, now);
    WrittenShape(r.s, f, env, now);
    FramedInv(r, seed, f, Written(r.s, f, env, now));
  }

  /** Any state that holds a frame more than before keeps the invariant with it. */
  lemma FramedInv(r: Run, seed: Assembly, f: Frame, s': State)
    requires Timeline.Valid(seed) && Coalesced(r.h.framed, r.h.groups, seed)
    requires s'.pending.None? && !s'.log.closed
    requires s'.lastDelta == (if IsTextDelta(f.event) then KeyOf(f.event) else NoKey)
    requires Logged(s'.log, r.h.framed + [f], seed) && Following(s', r.h.(framed := r.h.framed + [f]), seed)
    requires LogNotAfter(s'.log, f.at)
    ensures Inv(Run(s', r.h.(framed := r.h.framed + [f], groups := r.h.groups + [[f]], lastAt := f.at)), seed)
  {
    hide Logged, Coalesced, Timeline.Valid;
    AppendCoalesced(r.h.framed, r.h.groups, seed, f);
    var h' := r.h.(framed := r.h.framed + [f], groups := r.h.groups + [[f]], lastAt := f.at);
    assert h'.framed + Held(s') == r.h.framed + [f];
  }

  lemma WrittenShape(s: State, f: Frame, env: Env, now: nat)
    requires Encodes(f.event)
    ensures var s' := Written(s, f, env, now);
            && s'.pending == s.pending && s'.log.closed == s.log.closed && s'.folding == s.folding
            && s'.lastDelta == (if IsTextDelta(f.event) then KeyOf(f.event) else NoKey)
  {}

  lemma EmitHeld(r: Run, seed: Assembly, f: Frame)
    requires Inv(r, seed) && !r.s.log.closed && r.s.pending.None? && IsTextDelta(f.event) && r.h.lastAt <= f.at
    requires KeyOf(f.event) == r.s.lastDelta
    ensures Inv(Run(r.s.(pending := Some(Pending(f.event, f.event.delta, f.at))),
                    r.h.(groups := r.h.groups + [[f]], lastAt := f.at)), seed)
  {
    hide Coalesced, Timeline.Valid, Logged;
    var s' := r.s.(pending := Some(Pending(f.event, f.event.delta, f.at)));
    assert r.h.framed + Held(r.s) == r.h.framed;
    assert Held(s') == [f];
    AppendCoalesced(r.h.framed, r.h.groups, seed, f);
    assert Logged(s'.log, r.h.framed, seed);
  }

  lemma EmitJoined(r: Run, seed: Assembly, f: Frame)
    requires Inv(r, seed) && !r.s.log.closed && JoinsPending(r.s, f.event) && r.h.lastAt <= f.at
    ensures |r.h.groups| > 0
    ensures Inv(Run(r.s.(pending := Some(r.s.pending.value.(text := r.s.pending.value.text + f.event.delta, at := f.at))),
                    r.h.(groups := r.h.groups[|r.h.groups| - 1 := r.h.groups[|r.h.groups| - 1] + [f]], lastAt := f.at)), seed)
  {
    hide Coalesced, Timeline.Valid, Logged;
    var p := r.s.pending.value;
    var s' := r.s.(pending := Some(p.(text := p.text + f.event.delta, at := f.at)));
    assert Held(r.s) == [PendingFrame(p)];
    JoinCoalesced(r.h.framed, PendingFrame(p), r.h.groups, seed, f);
    assert Held(s') == [Frame(Joined(PendingFrame(p).event, f.event), f.at)];
    assert Logged(s'.log, r.h.framed, seed);
  }

  lemma EmitInv(r: Run, seed: Assembly, f: Frame, within: bool, env: Env, now: nat)
    requires Inv(r, seed) && !r.s.log.closed && WellFormed(f.event) && r.h.lastAt <= f.at
    ensures Inv(Next(r, Emit(f, within), env, now), seed)
  {
    hide Inv, Written;
    if JoinsPending(r.s, f.event) {
      EmitJoined(r, seed, f);
    } else {
      PendingFramedInv(r, seed, env, now);
      var r1 := Run(PendingFramed(r.s, env, now), r.h.(framed := r.h.framed + Held(r.s)));
      if IsTextDelta(f.event) && within && KeyOf(f.event) == r1.s.lastDelta {
        EmitHeld(r1, seed, f);
      } else {
        EmitWritten(r1, seed, f, env, now);
      }
    }
  }

  lemma ClosedStepInv(r: Run, a: Action, seed: Assembly, env: Env, now: nat)
    requires Inv(r, seed) && r.s.log.closed
    ensures Inv(Next(r, a, env, now), seed)
  {
    hide Take, Timeline.Valid, Timeline.Apply;
    assert Next(r, a, env, now).s.log == r.s.log;
  }

  lemma BeginInv(r: Run, seed: Assembly, env: Env, now: nat)
    requires Inv(r, seed) && !r.s.log.closed && Allowed(r, Begin(seed), seed)
    ensures Inv(Next(r, Begin(seed), env, now), seed)
  {
    hide Logged, Timeline.Valid, Coalesced;
    var r' := Next(r, Begin(seed), env, now);
    OthersAssembleNothing(seed, r.h.framed);
    assert Held(r'.s) == Held(r.s);
    assert Logged(r'.s.log, r'.h.framed, seed);
  }

  lemma FinishInv(r: Run, seed: Assembly, env: Env, now: nat)
    requires Inv(r, seed) && !r.s.log.closed
    ensures Inv(Next(r, Finish, env, now), seed)
  {
    hide Logged, Timeline.Valid, Coalesced, Written;
    PendingFramedInv(r, seed, env, now);
    var r1 := Run(PendingFramed(r.s, env, now), r.h.(framed := r.h.framed + Held(r.s)));
    var r' := Next(r, Finish, env, now);
    assert Held(r'.s) == Held(r1.s);
    assert Logged(r'.s.log, r'.h.framed, seed);
  }

  lemma CloseInv(r: Run, seed: Assembly, env: Env, now: nat)
    requires Inv(r, seed) && !r.s.log.closed
    ensures Inv(Next(r, Close, env, now), seed)
  {
    hide Take, Timeline.Valid, Coalesced, Following;
    var r' := Next(r, Close, env, now);
    assert Logged(r'.s.log, r'.h.framed, seed);
  }

  /** Every allowed step keeps the invariant. */
  lemma StepInv(r: Run, a: Action, seed: Assembly, env: Env, now: nat)
    requires Inv(r, seed) && Allowed(r, a, seed)
    ensures Inv(Next(r, a, env, now), seed)
  {
    hide Inv;
    if r.s.log.closed {
      ClosedStepInv(r, a, seed, env, now);
    } else {
      match a
      case Emit(f, within) => EmitInv(r, seed, f, within, env, now);
      case Fire => PendingFramedInv(r, seed, env, now);
      case Begin(start) => BeginInv(r, seed, env, now);
      case Finish => FinishInv(r, seed, env, now);
      case Close => CloseInv(r, seed, env, now);
    }
  }

  lemma InitInv(budget: nat, seed: Assembly)
    requires Timeline.Valid(seed)
    ensures Inv(Opening(budget), seed)
  {
    var r := Opening(budget);
    assert r.h.framed + Held(r.s) == [];
  }

  // ---- Whole runs ----

  datatype Timed = Timed(action: Action, now: nat)

  function After(budget: nat, actions: seq<Timed>, env: Env): (r: Run)
    ensures Sane(r.s)
  {
    if actions == [] then Opening(budget)
    else
      var n := |actions| - 1;
      Next(After(budget, actions[..n], env), actions[n].action, env, actions[n].now)
  }

  ghost predicate AllAllowed(budget: nat, actions: seq<Timed>, env: Env, seed: Assembly) {
    forall i :: 0 <= i < |actions| ==> Allowed(After(budget, actions[..i], env), actions[i].action, seed)
  }

  lemma AllowedBefore(budget: nat, actions: seq<Timed>, env: Env, seed: Assembly, n: nat)
    requires AllAllowed(budget, actions, env, seed) && n <= |actions|
    ensures AllAllowed(budget, actions[..n], env, seed)
  {
    forall i | 0 <= i < n ensures Allowed(After(budget, actions[..n][..i], env), actions[..n][i].action, seed) {
      assert actions[..n][..i] == actions[..i];
    }
  }

  lemma {:induction false} RunInv(budget: nat, actions: seq<Timed>, env: Env, seed: Assembly)
    requires Timeline.Valid(seed) && AllAllowed(budget, actions, env, seed)
    ensures Inv(After(budget, actions, env), seed)
  {
    hide Inv, Next, Opening, Allowed;
    if actions == [] {
      InitInv(budget, seed);
    } else {
      var n := |actions| - 1;
      AllowedBefore(budget, actions, env, seed, n);
      RunInv(budget, actions[..n], env, seed);
      StepInv(After(budget, actions[..n], env), actions[n].action, seed, env, actions[n].now);
    }
  }

  // ---- What was emitted ----

  predicate ClosedBy(actions: seq<Timed>) { exists i :: 0 <= i < |actions| && actions[i].action.Close? }

  /** The events a run was given while its log was open, those that encode, in order. */
  function EmittedBy(actions: seq<Timed>): seq<Frame> {
    if actions == [] then []
    else
      var n := |actions| - 1;
      var a := actions[n].action;
      EmittedBy(actions[..n]) + if !ClosedBy(actions[..n]) && a.Emit? && Encodes(a.frame.event) then [a.frame] else []
  }

  /** The history holds each event as it is emitted, in a group of its own or in the last. */
  lemma RememberEmits(h: History, s: State, a: Action)
    ensures Flatten(Remember(h, s, a).groups) ==
            Flatten(h.groups) + if !s.log.closed && a.Emit? && Encodes(a.frame.event) then [a.frame] else []
  {
    hide Flatten;
    if a.Emit? { FlattenGrows(h.groups, a.frame); }
  }

  lemma StepCloses(s: State, a: Action, env: Env, now: nat)
    requires Sane(s)
    ensures Step(s, a, env, now).log.closed == (s.log.closed || a.Close?)
  {
    hide Folded, Merged, Tracked, Timeline.Apply, FoldOps, WithText, JoinsPending;
  }

  /** The history's groups are the events the run was given. */
  lemma {:induction false} HistoryIsEmitted(budget: nat, actions: seq<Timed>, env: Env)
    ensures Flatten(After(budget, actions, env).h.groups) == EmittedBy(actions)
    ensures After(budget, actions, env).s.log.closed == ClosedBy(actions)
  {
    hide Flatten, Step, Remember;
    if actions == [] {
      NoGroups();
    } else {
      var n := |actions| - 1;
      var r := After(budget, actions[..n], env);
      HistoryIsEmitted(budget, actions[..n], env);
      RememberEmits(r.h, r.s, actions[n].action);
      StepCloses(r.s, actions[n].action, env, actions[n].now);
      ClosedMore(actions);
    }
  }

  lemma NoGroups()
    ensures Flatten([]) == []
  {}

  lemma ClosedMore(actions: seq<Timed>)
    requires actions != []
    ensures var n := |actions| - 1; ClosedBy(actions) == (ClosedBy(actions[..n]) || actions[n].action.Close?)
  {
    var n := |actions| - 1;
    assert forall i :: 0 <= i < n ==> actions[..n][i] == actions[i];
  }

  /** A closed log stays as it was closed, with nothing held. */
  lemma {:induction false} RunJoined(budget: nat, actions: seq<Timed>, env: Env, seed: Assembly)
    requires Timeline.Valid(seed) && AllAllowed(budget, actions, env, seed)
    ensures var r := After(budget, actions, env); Coalesced(r.h.framed + Held(r.s), r.h.groups, seed)
  {
    hide Take, Timeline.Valid, AllAllowed, Coalesced, Step;
    var r := After(budget, actions, env);
    RunInv(budget, actions, env, seed);
    if r.s.log.closed {
      if actions == [] {
        assert false;
      } else {
        var n := |actions| - 1;
        var before := After(budget, actions[..n], env);
        AllowedBefore(budget, actions, env, seed, n);
        RunJoined(budget, actions[..n], env, seed);
        StepCloses(before.s, actions[n].action, env, actions[n].now);
        assert r.h == before.h;
        assert Held(before.s) == [] && Held(r.s) == [] by { ClosedHolds(budget, actions, env, seed); }
      }
    }
  }

  lemma ClosedHolds(budget: nat, actions: seq<Timed>, env: Env, seed: Assembly)
    requires actions != [] && AllAllowed(budget, actions, env, seed) && After(budget, actions, env).s.log.closed
    ensures Held(After(budget, actions, env).s) == [] && Held(After(budget, actions[..|actions| - 1], env).s) == []
  {
    hide After, Step;
    var n := |actions| - 1;
    var before := After(budget, actions[..n], env);
    AfterLast(budget, actions, env);
    StepCloses(before.s, actions[n].action, env, actions[n].now);
    assert Allowed(before, actions[n].action, seed);
  }

  lemma AfterLast(budget: nat, actions: seq<Timed>, env: Env)
    requires actions != []
    ensures var n := |actions| - 1; After(budget, actions, env) == Next(After(budget, actions[..n], env), actions[n].action, env, actions[n].now)
  {}

  /**
   Coalescing refines immediate framing: whatever was held and for however long,
   the frames with those still held are the events emitted, in order, each group of
   adjacent deltas to one target joined, and the messages assembled from them are
   those assembled from every event by itself.
   */
  lemma CoalescingRefines(budget: nat, actions: seq<Timed>, env: Env, seed: Assembly)
    requires Timeline.Valid(seed) && AllAllowed(budget, actions, env, seed)
    ensures var r := After(budget, actions, env);
            && Grouped(r.h.framed + Held(r.s), r.h.groups) && Flatten(r.h.groups) == EmittedBy(actions)
            && Assembled(seed, r.h.framed + Held(r.s)) == Assembled(seed, EmittedBy(actions))
            && Take(Start(seed), r.h.framed + Held(r.s)) == Take(Start(seed), EmittedBy(actions))
            && (!ClosedBy(actions) && r.s.folding && r.s.pending.None? ==> r.s.observed == Assembled(seed, EmittedBy(actions)))
  {
    hide Take, Timeline.Valid, Assembled, After, AllAllowed, Flatten, Grouped;
    RunInv(budget, actions, env, seed);
    RunJoined(budget, actions, env, seed);
    HistoryIsEmitted(budget, actions, env);
    var r := After(budget, actions, env);
    if r.s.pending.None? {
      assert r.h.framed + Held(r.s) == r.h.framed;
    }
  }

  /**
   The checkpoint keeps the meaning of the run: at any point, what a client shows
   from nothing of the checkpoint, the frames after it and what is still held is what
   it would show of every event emitted, however often the log was folded.
   */
  lemma CheckpointKeepsMeaning(budget: nat, actions: seq<Timed>, env: Env, seed: Assembly)
    requires Timeline.Valid(seed) && AllAllowed(budget, actions, env, seed)
    ensures var r := After(budget, actions, env);
            && Take(Start(seed), Datas(r.s.log.checkpoint + r.s.log.frames)) == Take(Start(seed), r.h.framed)
            && Take(Start(seed), Datas(r.s.log.checkpoint + r.s.log.frames) + Held(r.s)) == Take(Start(seed), EmittedBy(actions))
  {
    hide Take, Timeline.Valid, Assembled, After, AllAllowed, Flatten, Grouped;
    RunInv(budget, actions, env, seed);
    RunJoined(budget, actions, env, seed);
    HistoryIsEmitted(budget, actions, env);
    var r := After(budget, actions, env);
    LoggedShowsAll(r.s.log, r.h.framed, seed);
    TakeConcat(Start(seed), Datas(r.s.log.checkpoint + r.s.log.frames), Held(r.s));
    TakeConcat(Start(seed), r.h.framed, Held(r.s));
  }
}
