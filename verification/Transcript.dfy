/**
 What the assembler's messages say, told without it: a message's text is the text sent to
 it, its reasoning the reasoning, and a call's arguments what was streamed since it began.
 */
module Transcript {
  import opened Options
  import opened Events
  import opened Timeline
  import StreamRuns
  import Streaming

  // ---- Told from the events ----

  function TextOf(e: Event, key: string): string {
    if e.TextChunk? && MessageKey(e.messageId) == key then e.delta else ""
  }

  function ReasoningOf(e: Event, key: string): string {
    if e.ReasoningChunk? && MessageKey(TrimReasoning(e.messageId)) == key then e.delta else ""
  }

  function Texts(fs: seq<Frame>, key: string): string {
    if fs == [] then "" else Texts(fs[..|fs| - 1], key) + TextOf(fs[|fs| - 1].event, key)
  }

  function Reasonings(fs: seq<Frame>, key: string): string {
    if fs == [] then "" else Reasonings(fs[..|fs| - 1], key) + ReasoningOf(fs[|fs| - 1].event, key)
  }

  /** A call's arguments after an event: none before it starts. */
  function ArgumentsAfter(args: Option<string>, e: Event, call: string): Option<string> {
    if e.ToolCallStart? && e.toolCallId == call then Some("")
    else if e.ToolCallArgs? && e.toolCallId == call && args.Some? then Some(args.value + e.delta)
    else args
  }

  function Arguments(args: Option<string>, fs: seq<Frame>, call: string): Option<string> {
    if fs == [] then args else ArgumentsAfter(Arguments(args, fs[..|fs| - 1], call), fs[|fs| - 1].event, call)
  }

  // ---- Read from the messages ----

  /** The contents of a timeline's blocks of one kind, in order. */
  function Body(blocks: seq<Block>, kind: BlockKind): string {
    if blocks == [] then ""
    else Body(blocks[..|blocks| - 1], kind) + if blocks[|blocks| - 1].kind == kind then blocks[|blocks| - 1].content else ""
  }

  function ContentIn(a: Assembly, key: string): string { if key in a.byId then a.byId[key].content else "" }

  function BodyIn(a: Assembly, key: string, kind: BlockKind): string {
    if key in a.byId then Body(a.byId[key].timeline, kind) else ""
  }

  /** The block of a call that has started. */
  function CallIn(a: Assembly, call: string): Option<Block> {
    if HasCall(a, call) then Some(CallBlockOf(a, call)) else None
  }

  function ArgumentsIn(a: Assembly, call: string): Option<string> {
    if CallIn(a, call).Some? then Some(CallIn(a, call).value.arguments) else None
  }

  /** What an event makes of a call's block: its start makes a new one, and an event of the call edits it. */
  function CallAfter(b: Option<Block>, f: Frame, call: string): Option<Block> {
    if f.event.ToolCallStart? then
      if f.event.toolCallId == call then Some(NewBlock(CallBlock(call), ToolCall, Millis(f.at)).(name := f.event.toolCallName)) else b
    else if EditsCall(f.event) && CallOf(f.event) == call && b.Some? then Some(Edited(b.value, f))
    else b
  }

  /** Calls have blocks of their own. */
  ghost predicate CallsOk(a: Assembly) {
    && (forall c :: c in a.calls ==> HasCall(a, c) && CallBlockOf(a, c).kind.ToolCall?)
    && (forall c, d :: c in a.calls && d in a.calls && c != d ==> a.calls[c] != a.calls[d])
  }

  // ---- Bodies ----

  lemma BodyMore(blocks: seq<Block>, b: Block, kind: BlockKind)
    ensures Body(blocks + [b], kind) == Body(blocks, kind) + if b.kind == kind then b.content else ""
  {
    assert (blocks + [b])[..|blocks|] == blocks;
  }

  /** A block that is, and stays, of another kind does not tell. */
  lemma {:induction false} BodyOther(blocks: seq<Block>, i: nat, b: Block, kind: BlockKind)
    requires i < |blocks| && blocks[i].kind != kind && b.kind != kind
    ensures Body(blocks[i := b], kind) == Body(blocks, kind)
  {
    var n := |blocks| - 1;
    if i < n {
      BodyOther(blocks[..n], i, b, kind);
      assert blocks[i := b][..n] == blocks[..n][i := b];
    } else {
      assert blocks[i := b][..n] == blocks[..n];
    }
  }

  /** The last block of a kind grows, and the body with it. */
  lemma BodyLast(blocks: seq<Block>, b: Block, delta: string, kind: BlockKind)
    requires |blocks| > 0 && blocks[|blocks| - 1].kind == b.kind && b.content == blocks[|blocks| - 1].content + delta
    ensures Body(blocks[|blocks| - 1 := b], kind) == Body(blocks, kind) + if b.kind == kind then delta else ""
  {
    var n := |blocks| - 1;
    assert blocks[n := b][..n] == blocks[..n];
  }

  lemma BodyLate(blocks: seq<Block>, b: Block, delta: string, kind: BlockKind)
    requires var n := |blocks|;
             && n >= 2 && blocks[n - 1].kind.Content? && blocks[n - 2].kind.Thinking? && b.kind.Thinking?
             && b.content == blocks[n - 2].content + delta
    ensures Body(blocks[|blocks| - 2 := b], kind) == Body(blocks, kind) + if kind.Thinking? then delta else ""
  {
    var n := |blocks|;
    var rest := blocks[..n - 1];
    BodyLast(rest, b, delta, kind);
    assert blocks[n - 2 := b][..n - 1] == rest[n - 2 := b];
  }

  // ---- One event ----

  lemma ExtendedTells(m: Message, id: string, sealed: nat, kind: BlockKind, delta: string, at: nat, other: BlockKind)
    requires !kind.ToolCall?
    ensures var m' := Extended(m, id, sealed, kind, delta, at);
            && m'.content == m.content + (if kind.Content? then delta else "")
            && Body(m'.timeline, other) == Body(m.timeline, other) + (if kind == other then delta else "")
  {
    hide Body;
    var blocks := m.timeline;
    var n := |blocks|;
    if IsLate(blocks, sealed, kind) {
      BodyLate(blocks, blocks[n - 2].(content := blocks[n - 2].content + delta), delta, other);
    } else if n <= sealed || blocks[n - 1].kind != kind {
      NewBlockTells(blocks, NewBlock(StreamedBlock(id, kind, n), kind, if kind.Thinking? then Millis(at) else 0), delta, at, other);
    } else {
      LastBlockTells(blocks, delta, at, other);
    }
  }

  lemma LastBlockTells(blocks: seq<Block>, delta: string, at: nat, kind: BlockKind)
    requires |blocks| > 0
    ensures var n := |blocks| - 1;
            var last := blocks[n].(content := blocks[n].content + delta);
            && Body(blocks[n := last], kind) == Body(blocks, kind) + (if last.kind == kind then delta else "")
            && Body(blocks[n := Timed(last, Millis(at))], kind) == Body(blocks, kind) + (if last.kind == kind then delta else "")
  {
    hide Body;
    var n := |blocks| - 1;
    var last := blocks[n].(content := blocks[n].content + delta);
    BodyLast(blocks, last, delta, kind);
    BodyLast(blocks, Timed(last, Millis(at)), delta, kind);
  }

  lemma NewBlockTells(blocks: seq<Block>, b: Block, delta: string, at: nat, kind: BlockKind)
    requires b.content == ""
    ensures var grown, n := blocks + [b], |blocks|;
            var last := grown[n].(content := grown[n].content + delta);
            && Body(grown[n := last], kind) == Body(blocks, kind) + (if b.kind == kind then delta else "")
            && Body(grown[n := Timed(last, Millis(at))], kind) == Body(blocks, kind) + (if b.kind == kind then delta else "")
  {
    hide Body;
    BodyMore(blocks, b, kind);
    LastBlockTells(blocks + [b], delta, at, kind);
  }

  /** Streamed text leaves every call's block as it was. */
  lemma ExtendedKeepsCalls(m: Message, id: string, sealed: nat, kind: BlockKind, delta: string, at: nat, i: nat)
    requires !kind.ToolCall? && i < |m.timeline| && m.timeline[i].kind.ToolCall?
    ensures var m' := Extended(m, id, sealed, kind, delta, at); i < |m'.timeline| && m'.timeline[i] == m.timeline[i]
  {}

  lemma StreamedTells(a: Assembly, id: string, kind: BlockKind, delta: string, at: nat, key: string, other: BlockKind)
    requires !kind.ToolCall?
    ensures var a' := Streamed(a, id, kind, delta, at);
            && ContentIn(a', key) == ContentIn(a, key) + (if key == MessageKey(id) && kind.Content? then delta else "")
            && BodyIn(a', key, other) == BodyIn(a, key, other) + (if key == MessageKey(id) && kind == other then delta else "")
  {
    hide Extended, Body;
    if key == MessageKey(id) {
      assert Body([], other) == "" by { BodyNone(other); }
      ExtendedTells(Stamped(a, id, at), id, SealedBlocks(a, id), kind, delta, at, other);
    }
  }

  lemma BodyNone(kind: BlockKind)
    ensures Body([], kind) == ""
  {}

  lemma StreamedKeepsCalls(a: Assembly, id: string, kind: BlockKind, delta: string, at: nat, call: string)
    requires !kind.ToolCall? && CallsOk(a)
    ensures CallsOk(Streamed(a, id, kind, delta, at))
    ensures CallIn(Streamed(a, id, kind, delta, at), call) == CallIn(a, call)
  {
    hide Extended;
    var a' := Streamed(a, id, kind, delta, at);
    forall c | c in a.calls ensures HasCall(a', c) && CallBlockOf(a', c) == CallBlockOf(a, c) {
      assert HasCall(a, c);
      if a.calls[c].message == MessageKey(id) {
        ExtendedKeepsCalls(Stamped(a, id, at), id, SealedBlocks(a, id), kind, delta, at, a.calls[c].index);
      }
    }
  }

  lemma CallStartedTells(a: Assembly, call: string, name: string, parent: string, at: nat, key: string, kind: BlockKind)
    requires !kind.ToolCall?
    ensures var a' := CallStarted(a, call, name, parent, at);
            ContentIn(a', key) == ContentIn(a, key) && BodyIn(a', key, kind) == BodyIn(a, key, kind)
  {
    hide Body, CallParent;
    var p := CallParent(a, call, parent);
    BodyMore(Stamped(a, p, at).timeline, NewBlock(CallBlock(call), ToolCall, Millis(at)).(name := name), kind);
    BodyNone(kind);
  }

  lemma CallStartedCalls(a: Assembly, started: string, name: string, parent: string, at: nat, call: string)
    requires CallsOk(a)
    ensures var a' := CallStarted(a, started, name, parent, at);
            && CallsOk(a')
            && CallIn(a', call) == if call == started then Some(NewBlock(CallBlock(started), ToolCall, Millis(at)).(name := name)) else CallIn(a, call)
  {
    hide CallParent, Stamped, CallsOk;
    var p, a' := CallParent(a, started, parent), CallStarted(a, started, name, parent, at);
    StampedKeeps(a, p, at);
    assert HasCall(a', started) && CallBlockOf(a', started) == NewBlock(CallBlock(started), ToolCall, Millis(at)).(name := name);
    NewCallApart(a, a', started, MessageKey(p), Stamped(a, p, at).timeline, CallBlockOf(a', started));
    if call in a.calls { HasEvery(a, call); }
  }

  lemma HasEvery(a: Assembly, call: string)
    requires CallsOk(a) && call in a.calls
    ensures HasCall(a, call)
  {}

  lemma StampedKeeps(a: Assembly, p: string, at: nat)
    ensures MessageKey(p) in a.byId ==> Stamped(a, p, at).timeline == a.byId[MessageKey(p)].timeline
  {}

  /** A call whose block is put last in a message is apart from every other. */
  lemma NewCallApart(a: Assembly, a': Assembly, started: string, key: string, blocks: seq<Block>, b: Block)
    requires CallsOk(a) && (key in a.byId ==> a.byId[key].timeline == blocks) && b.kind.ToolCall?
    requires key in a'.byId && a'.byId == a.byId[key := a'.byId[key]] && a'.byId[key].timeline == blocks + [b]
    requires a'.calls == a.calls[started := BlockRef(key, |blocks|)]
    ensures CallsOk(a')
    ensures forall c :: c in a.calls && c != started ==> HasCall(a', c) && CallBlockOf(a', c) == CallBlockOf(a, c)
  {
    forall c | c in a.calls && c != started ensures HasCall(a', c) && CallBlockOf(a', c) == CallBlockOf(a, c) && a'.calls[c] != a'.calls[started] {
      assert HasCall(a, c);
    }
  }

  lemma EditTells(a: Assembly, call: string, b: Block, key: string, kind: BlockKind)
    requires HasCall(a, call) && CallBlockOf(a, call).kind.ToolCall? && b.kind.ToolCall? && !kind.ToolCall?
    ensures var a' := WithCallBlock(a, call, b);
            ContentIn(a', key) == ContentIn(a, key) && BodyIn(a', key, kind) == BodyIn(a, key, kind)
  {
    hide Body;
    var ref := a.calls[call];
    BodyOther(a.byId[ref.message].timeline, ref.index, b, kind);
  }

  lemma EditCalls(a: Assembly, edited: string, b: Block, call: string)
    requires CallsOk(a) && HasCall(a, edited) && b.kind.ToolCall?
    ensures var a' := WithCallBlock(a, edited, b);
            CallsOk(a') && CallIn(a', call) == if call == edited then Some(b) else CallIn(a, call)
  {
    var a' := WithCallBlock(a, edited, b);
    forall c | c in a.calls
      ensures HasCall(a', c) && CallBlockOf(a', c) == if c == edited then b else CallBlockOf(a, c)
    {
      assert HasCall(a, c);
      assert c != edited ==> a.calls[c] != a.calls[edited];
    }
    assert call in a.calls ==> HasCall(a, call);
  }

  /** One event adds its text to its message, its reasoning to its reasoning, and its arguments to its call's. */
  lemma ApplyTells(a: Assembly, f: Frame, key: string, call: string)
    requires CallsOk(a)
    ensures var a' := Apply(a, f);
            && CallsOk(a')
            && ContentIn(a', key) == ContentIn(a, key) + TextOf(f.event, key)
            && BodyIn(a', key, Content) == BodyIn(a, key, Content) + TextOf(f.event, key)
            && BodyIn(a', key, Thinking) == BodyIn(a, key, Thinking) + ReasoningOf(f.event, key)
            && CallIn(a', call) == CallAfter(CallIn(a, call), f, call)
            && ArgumentsIn(a', call) == ArgumentsAfter(ArgumentsIn(a, call), f.event, call)
  {
    hide CallsOk, ContentIn, BodyIn, CallIn, Streamed, CallStarted, WithCallBlock, TrimReasoning, TrimActivity, Lines;
    match f.event
    case TextChunk(id, _, delta) =>
      StreamedTells(a, id, Content, delta, f.at, key, Content);
      StreamedTells(a, id, Content, delta, f.at, key, Thinking);
      StreamedKeepsCalls(a, id, Content, delta, f.at, call);
    case ReasoningChunk(id, delta) =>
      StreamedTells(a, TrimReasoning(id), Thinking, delta, f.at, key, Content);
      StreamedTells(a, TrimReasoning(id), Thinking, delta, f.at, key, Thinking);
      StreamedKeepsCalls(a, TrimReasoning(id), Thinking, delta, f.at, call);
    case ToolCallStart(started, name, parent) =>
      CallStartedTells(a, started, name, parent, f.at, key, Content);
      CallStartedTells(a, started, name, parent, f.at, key, Thinking);
      CallStartedCalls(a, started, name, parent, f.at, call);
    case Other(_, _, _) =>
    case _ => EditEvent(a, f, key, call);
  }

  lemma EditEvent(a: Assembly, f: Frame, key: string, call: string)
    requires CallsOk(a) && EditsCall(f.event)
    ensures var a' := Apply(a, f);
            && CallsOk(a') && ContentIn(a', key) == ContentIn(a, key)
            && BodyIn(a', key, Content) == BodyIn(a, key, Content) && BodyIn(a', key, Thinking) == BodyIn(a, key, Thinking)
            && CallIn(a', call) == CallAfter(CallIn(a, call), f, call)
  {
    hide CallsOk, ContentIn, BodyIn, WithCallBlock, Lines, TrimActivity;
    var edited := CallOf(f.event);
    if HasCall(a, edited) {
      var b := Edited(CallBlockOf(a, edited), f);
      CallIsCall(a, edited);
      EditTells(a, edited, b, key, Content);
      EditTells(a, edited, b, key, Thinking);
      EditCalls(a, edited, b, call);
    }
  }

  lemma CallIsCall(a: Assembly, call: string)
    requires CallsOk(a) && HasCall(a, call)
    ensures CallBlockOf(a, call).kind.ToolCall?
  {}

  // ---- Every event ----

  /**
   Whatever the events, an assembly's messages say just what was sent to them: the text in
   order, as the message's content and as its content blocks; the reasoning in order, late
   reasoning included; and each call's arguments since it started.
   */
  lemma {:induction false} AssembledTells(a: Assembly, fs: seq<Frame>, key: string, call: string)
    requires CallsOk(a)
    ensures var a' := StreamRuns.Assembled(a, fs);
            && CallsOk(a')
            && ContentIn(a', key) == ContentIn(a, key) + Texts(fs, key)
            && BodyIn(a', key, Content) == BodyIn(a, key, Content) + Texts(fs, key)
            && BodyIn(a', key, Thinking) == BodyIn(a, key, Thinking) + Reasonings(fs, key)
            && ArgumentsIn(a', call) == Arguments(ArgumentsIn(a, call), fs, call)
  {
    hide CallsOk, ContentIn, BodyIn, ArgumentsIn, Apply, TextOf, ReasoningOf, ArgumentsAfter;
    if fs != [] {
      var n := |fs| - 1;
      AssembledTells(a, fs[..n], key, call);
      ApplyTells(StreamRuns.Assembled(a, fs[..n]), fs[n], key, call);
    }
  }

  lemma SeedsTell(reply: Message)
    ensures CallsOk(EMPTY) && CallsOk(Seeded(reply))
  {}

  /**
   What a run's assembler holds, for every schedule of holds and folds, is what the run
   emitted: told from the emitted events alone, for a new reply or a continued one.
   */
  lemma RunTells(budget: nat, actions: seq<StreamRuns.Timed>, env: Streaming.Env, seed: Assembly, reply: Message, key: string, call: string)
    requires Timeline.Valid(seed) && (seed == EMPTY || seed == Seeded(reply)) && StreamRuns.AllAllowed(budget, actions, env, seed)
    ensures var r, fs := StreamRuns.After(budget, actions, env), StreamRuns.EmittedBy(actions);
            !StreamRuns.ClosedBy(actions) && r.s.folding && r.s.pending.None? ==>
              && ContentIn(r.s.observed, key) == ContentIn(seed, key) + Texts(fs, key)
              && BodyIn(r.s.observed, key, Content) == BodyIn(seed, key, Content) + Texts(fs, key)
              && BodyIn(r.s.observed, key, Thinking) == BodyIn(seed, key, Thinking) + Reasonings(fs, key)
              && ArgumentsIn(r.s.observed, call) == Arguments(ArgumentsIn(seed, call), fs, call)
  {
    hide StreamRuns.After, StreamRuns.AllAllowed, StreamRuns.Assembled, CallsOk, ContentIn, BodyIn, ArgumentsIn, Timeline.Valid;
    SeedsTell(reply);
    StreamRuns.CoalescingRefines(budget, actions, env, seed);
    AssembledTells(seed, StreamRuns.EmittedBy(actions), key, call);
  }
}
