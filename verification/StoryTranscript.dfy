/**
 What a reply's messages are, told from the events alone: which messages there are, in
 which order and from when, and which events each block of their timelines stands for.
 A story keeps the frames themselves; the assembler's blocks are checked against them.
 */
module StoryTranscript {
  import opened Options
  import opened Events
  import opened Timeline
  import opened CallTranscript
  import Transcript
  import StreamRuns
  import Streaming

  /**
   One block of a timeline: a block as it began, with the deltas that went into it while
   it was the last of its message and the reasoning that came late; or a tool call.
   */
  datatype Part = Spoken(base: Block, deltas: seq<Frame>, late: seq<Frame>) | Called(call: string)

  datatype Story = Story(order: seq<string>, dates: map<string, nat>, parts: map<string, seq<Part>>, calls: map<string, BlockRef>)

  function PartKind(p: Part): BlockKind { if p.Called? then ToolCall else p.base.kind }

  /** The message an event adds to, by the id the event gives. */
  function Target(order: seq<string>, e: Event): Option<string> {
    match e
    case TextChunk(id, _, _) => Some(id)
    case ReasoningChunk(id, _) => Some(TrimReasoning(id))
    case ToolCallStart(call, _, parent) =>
      Some(if parent != "" then parent else if order != [] && order[|order| - 1] != "" then order[|order| - 1] else "msg_" + call)
    case _ => None
  }

  /** Reasoning after reasoning and then text belongs to the reasoning, unless that is sealed. */
  predicate TurnsBack(ps: seq<Part>, sealed: nat, kind: BlockKind) {
    kind.Thinking? && |ps| >= sealed + 2 && PartKind(ps[|ps| - 1]).Content? && PartKind(ps[|ps| - 2]).Thinking?
  }

  function WithDelta(ps: seq<Part>, id: string, sealed: nat, kind: BlockKind, f: Frame): seq<Part>
    requires !kind.ToolCall?
  {
    var n := |ps|;
    if TurnsBack(ps, sealed, kind) then ps[n - 2 := ps[n - 2].(late := ps[n - 2].late + [f])]
    else if n > sealed && PartKind(ps[n - 1]) == kind then ps[n - 1 := ps[n - 1].(deltas := ps[n - 1].deltas + [f])]
    else ps + [Spoken(NewBlock(StreamedBlock(id, kind, n), kind, if kind.Thinking? then Millis(f.at) else 0), [f], [])]
  }

  function PartsIn(st: Story, key: string): seq<Part> { if key in st.parts then st.parts[key] else [] }

  function SealedIn(sealed: map<string, nat>, id: string): nat { if id in sealed then sealed[id] else 0 }

  /** A story one event longer. */
  function Longer(st: Story, sealed: map<string, nat>, f: Frame): Story {
    var target := Target(st.order, f.event);
    if target.None? then st
    else
      var id := target.value;
      var key := MessageKey(id);
      var ps := PartsIn(st, key);
      Story(if key in st.parts then st.order else st.order + [key],
            if key in st.parts && (ps != [] || id in sealed) then st.dates else st.dates[key := f.at],
            st.parts[key := if f.event.ToolCallStart? then ps + [Called(f.event.toolCallId)]
                            else WithDelta(ps, id, SealedIn(sealed, id), if f.event.TextChunk? then Content else Thinking, f)],
            if f.event.ToolCallStart? then st.calls[f.event.toolCallId := BlockRef(key, |ps|)] else st.calls)
  }

  function Told(st: Story, sealed: map<string, nat>, fs: seq<Frame>): Story {
    if fs == [] then st else Longer(Told(st, sealed, fs[..|fs| - 1]), sealed, fs[|fs| - 1])
  }

  /** The story of what an assembly starts with. */
  function StoryOf(a: Assembly): Story {
    Story(a.ordered, map key | key in a.byId :: a.byId[key].createdAt, map key | key in a.byId :: Bases(a.byId[key].timeline), a.calls)
  }

  function Bases(blocks: seq<Block>): seq<Part> {
    seq(|blocks|, i requires 0 <= i < |blocks| => Spoken(blocks[i], [], []))
  }

  // ---- What a block says of its part ----

  function DeltaOf(f: Frame): string { if f.event.TextChunk? || f.event.ReasoningChunk? then f.event.delta else "" }

  function Deltas(fs: seq<Frame>): string { if fs == [] then "" else Deltas(fs[..|fs| - 1]) + DeltaOf(fs[|fs| - 1]) }

  function NotBefore(start: nat): Frame -> bool { (f: Frame) => Millis(f.at) >= start }

  /** A block of thinking that has a start ends at its last delta from then on; any other keeps its times. */
  ghost predicate TellsTimes(b: Block, base: Block, deltas: seq<Frame>) {
    && b.startedAt == base.startedAt
    && (!base.kind.Thinking? || base.startedAt == 0 || Never(deltas, NotBefore(base.startedAt)) ==>
          b.endedAt == base.endedAt && b.duration == base.duration)
    && (base.kind.Thinking? && base.startedAt > 0 ==>
          forall i :: IsLast(deltas, NotBefore(base.startedAt), i) ==>
            b.endedAt == Millis(deltas[i].at) && b.duration == (b.endedAt - b.startedAt) as real / 1000.0)
  }

  ghost predicate TellsPart(b: Block, p: Part) {
    if p.Called? then b.kind.ToolCall? && b.id == CallBlock(p.call)
    else
      && b.content == p.base.content + Deltas(p.deltas) + Deltas(p.late)
      && b == p.base.(content := b.content, startedAt := b.startedAt, endedAt := b.endedAt, duration := b.duration)
      && TellsTimes(b, p.base, p.deltas)
  }

  ghost predicate TellsParts(blocks: seq<Block>, ps: seq<Part>) {
    |blocks| == |ps| && forall i :: 0 <= i < |ps| ==> TellsPart(blocks[i], ps[i])
  }

  /** Only a block of thinking with a block after it holds late reasoning. */
  ghost predicate LateInOrder(ps: seq<Part>) {
    forall i :: 0 <= i < |ps| && ps[i].Spoken? && (i == |ps| - 1 || !ps[i].base.kind.Thinking?) ==> ps[i].late == []
  }

  ghost predicate TellsMessage(m: Message, date: nat, ps: seq<Part>) {
    m.createdAt == date && TellsParts(m.timeline, ps) && LateInOrder(ps)
  }

  /** Every call's block is the part its start made. */
  ghost predicate CallsThere(st: Story) {
    forall c :: c in st.calls ==>
      && st.calls[c].message in st.parts && st.calls[c].index < |st.parts[st.calls[c].message]|
      && st.parts[st.calls[c].message][st.calls[c].index] == Called(c)
  }

  ghost predicate TellsStory(a: Assembly, st: Story) {
    && a.ordered == st.order && a.byId.Keys == st.parts.Keys && a.byId.Keys == st.dates.Keys && a.calls == st.calls && CallsThere(st)
    && forall key :: key in a.byId ==> TellsMessage(a.byId[key], st.dates[key], st.parts[key])
  }

  // ---- One event ----

  lemma DeltasMore(fs: seq<Frame>, f: Frame)
    ensures Deltas(fs + [f]) == Deltas(fs) + DeltaOf(f)
  {
    assert (fs + [f])[..|fs|] == fs;
  }

  lemma NoDeltas()
    ensures Deltas([]) == ""
  {}

  lemma LateTells(b: Block, p: Part, f: Frame)
    requires p.Spoken? && TellsPart(b, p)
    ensures TellsPart(b.(content := b.content + DeltaOf(f)), p.(late := p.late + [f]))
  {
    hide TellsTimes, Deltas;
    DeltasMore(p.late, f);
    TimesSame(b, b.(content := b.content + DeltaOf(f)), p.base, p.deltas);
  }

  lemma TimesSame(b: Block, b': Block, base: Block, deltas: seq<Frame>)
    requires TellsTimes(b, base, deltas) && b'.startedAt == b.startedAt && b'.endedAt == b.endedAt && b'.duration == b.duration
    ensures TellsTimes(b', base, deltas)
  {}

  lemma TextTells(b: Block, p: Part, f: Frame)
    requires p.Spoken? && TellsPart(b, p) && p.base.kind.Content? && p.late == []
    ensures TellsPart(b.(content := b.content + DeltaOf(f)), p.(deltas := p.deltas + [f]))
  {
    hide Deltas, IsLast, Never;
    DeltasMore(p.deltas, f);
    NoDeltas();
  }

  lemma ThoughtTells(b: Block, p: Part, f: Frame)
    requires p.Spoken? && TellsPart(b, p) && p.base.kind.Thinking? && p.late == []
    ensures TellsPart(Timed(b.(content := b.content + DeltaOf(f)), Millis(f.at)), p.(deltas := p.deltas + [f]))
  {
    hide Deltas, IsLast, Never, Millis;
    DeltasMore(p.deltas, f);
    NoDeltas();
    LastMore(p.deltas, f, NotBefore(p.base.startedAt));
  }

  lemma ReplaceTells(blocks: seq<Block>, ps: seq<Part>, i: nat, b: Block, p: Part)
    requires TellsParts(blocks, ps) && i < |ps| && TellsPart(b, p)
    ensures TellsParts(blocks[i := b], ps[i := p])
  {
    hide TellsPart;
  }

  lemma AppendTells(blocks: seq<Block>, ps: seq<Part>, b: Block, p: Part)
    requires TellsParts(blocks, ps) && TellsPart(b, p)
    ensures TellsParts(blocks + [b], ps + [p])
  {
    hide TellsPart;
  }

  lemma SameKinds(blocks: seq<Block>, ps: seq<Part>)
    requires TellsParts(blocks, ps)
    ensures forall i :: 0 <= i < |ps| ==> blocks[i].kind == PartKind(ps[i])
  {
    hide TellsTimes, Deltas;
    forall i | 0 <= i < |ps| ensures blocks[i].kind == PartKind(ps[i]) { assert TellsPart(blocks[i], ps[i]); }
  }

  lemma NewTells(id: BlockId, kind: BlockKind, f: Frame)
    requires !kind.ToolCall?
    ensures var b := NewBlock(id, kind, if kind.Thinking? then Millis(f.at) else 0);
            var b' := b.(content := b.content + DeltaOf(f));
            TellsPart(if kind.Thinking? then Timed(b', Millis(f.at)) else b', Spoken(b, [f], []))
  {
    hide Deltas, IsLast, Never, Millis;
    var b := NewBlock(id, kind, if kind.Thinking? then Millis(f.at) else 0);
    NoDeltas();
    LastMore([], f, NotBefore(b.startedAt));
    DeltasMore([], f);
    assert [] + [f] == [f];
    assert forall i :: !IsLast([], NotBefore(b.startedAt), i) by { NoLast(NotBefore(b.startedAt)); }
  }

  lemma NoLast(p: Frame -> bool)
    ensures forall i :: !IsLast([], p, i)
    ensures Never([], p)
  {}

  /** A delta extends the timeline as it extends the parts. */
  lemma ExtendedTells(m: Message, ps: seq<Part>, id: string, sealed: nat, kind: BlockKind, f: Frame)
    requires !kind.ToolCall? && TellsParts(m.timeline, ps) && LateInOrder(ps)
    ensures var m' := Extended(m, id, sealed, kind, DeltaOf(f), f.at);
            TellsParts(m'.timeline, WithDelta(ps, id, sealed, kind, f)) && m'.createdAt == m.createdAt && m'.id == m.id
    ensures LateInOrder(WithDelta(ps, id, sealed, kind, f)) && |WithDelta(ps, id, sealed, kind, f)| > 0
  {
    hide TellsPart, TellsParts, Deltas, Millis, DeltaOf, Timed;
    var blocks, n := m.timeline, |ps|;
    assert |blocks| == n by { SameLength(blocks, ps); }
    SameKinds(blocks, ps);
    if TurnsBack(ps, sealed, kind) {
      PartTells(blocks, ps, n - 2);
      LateTells(blocks[n - 2], ps[n - 2], f);
      ReplaceTells(blocks, ps, n - 2, blocks[n - 2].(content := blocks[n - 2].content + DeltaOf(f)), ps[n - 2].(late := ps[n - 2].late + [f]));
    } else if n > sealed && PartKind(ps[n - 1]) == kind {
      PartTells(blocks, ps, n - 1);
      var last := blocks[n - 1].(content := blocks[n - 1].content + DeltaOf(f));
      if kind.Content? { TextTells(blocks[n - 1], ps[n - 1], f); } else { ThoughtTells(blocks[n - 1], ps[n - 1], f); }
      ReplaceTells(blocks, ps, n - 1, if kind.Thinking? then Timed(last, Millis(f.at)) else last, ps[n - 1].(deltas := ps[n - 1].deltas + [f]));
    } else {
      var b := NewBlock(StreamedBlock(id, kind, n), kind, if kind.Thinking? then Millis(f.at) else 0);
      var b' := b.(content := b.content + DeltaOf(f));
      NewTells(b.id, kind, f);
      var last := if kind.Thinking? then Timed(b', Millis(f.at)) else b';
      AppendTells(blocks, ps, last, Spoken(b, [f], []));
      assert (blocks + [b])[n := last] == blocks + [last];
    }
  }

  lemma SameLength(blocks: seq<Block>, ps: seq<Part>)
    requires TellsParts(blocks, ps)
    ensures |blocks| == |ps|
  {}

  lemma PartTells(blocks: seq<Block>, ps: seq<Part>, i: nat)
    requires TellsParts(blocks, ps) && i < |ps|
    ensures TellsPart(blocks[i], ps[i])
  {}

  /** Called parts stay where they are. */
  ghost predicate CallsStay(ps: seq<Part>, ps': seq<Part>) {
    |ps| <= |ps'| && forall i :: 0 <= i < |ps| && ps[i].Called? ==> ps'[i] == ps[i]
  }

  /** A message put in place of the one before tells the story with its parts in place. */
  lemma PutTells(a: Assembly, st: Story, key: string, m: Message, date: nat, ps: seq<Part>)
    requires TellsStory(a, st) && TellsMessage(m, date, ps) && CallsStay(PartsIn(st, key), ps)
    ensures TellsStory(Put(a, key, m),
                       st.(order := if key in st.parts then st.order else st.order + [key], dates := st.dates[key := date], parts := st.parts[key := ps]))
  {
    hide TellsMessage;
  }

  lemma StampedTells(a: Assembly, st: Story, id: string, at: nat)
    requires TellsStory(a, st)
    ensures var key, m := MessageKey(id), Stamped(a, id, at);
            && TellsParts(m.timeline, PartsIn(st, key)) && LateInOrder(PartsIn(st, key))
            && m.createdAt == (if key in st.parts && (PartsIn(st, key) != [] || id in a.sealed) then st.dates[key] else at)
  {
    hide TellsPart, CallsThere;
    var key := MessageKey(id);
    if key in st.parts {
      assert TellsMessage(a.byId[key], st.dates[key], st.parts[key]);
    }
  }

  lemma DeltaStays(ps: seq<Part>, id: string, sealed: nat, kind: BlockKind, f: Frame)
    requires !kind.ToolCall?
    ensures CallsStay(ps, WithDelta(ps, id, sealed, kind, f))
  {}

  lemma SameDates(dates: map<string, nat>, key: string)
    requires key in dates
    ensures dates[key := dates[key]] == dates
  {}

  lemma StreamedStory(a: Assembly, st: Story, id: string, kind: BlockKind, f: Frame)
    requires TellsStory(a, st) && (f.event.TextChunk? || f.event.ReasoningChunk?)
    requires kind == (if f.event.TextChunk? then Content else Thinking) && Target(st.order, f.event) == Some(id)
    ensures TellsStory(Streamed(a, id, kind, f.event.delta, f.at), Longer(st, a.sealed, f))
  {
    hide TellsStory, TellsParts, LateInOrder, WithDelta, Extended, Stamped, CallsStay, Target;
    var key, m := MessageKey(id), Stamped(a, id, f.at);
    var ps := PartsIn(st, key);
    StampedTells(a, st, id, f.at);
    ExtendedTells(m, ps, id, SealedBlocks(a, id), kind, f);
    DeltaStays(ps, id, SealedBlocks(a, id), kind, f);
    var m' := Extended(m, id, SealedBlocks(a, id), kind, f.event.delta, f.at);
    PutTells(a, st, key, m', m.createdAt, WithDelta(ps, id, SealedBlocks(a, id), kind, f));
    if key in st.parts && (ps != [] || id in a.sealed) {
      DatesThere(a, st, key);
      SameDates(st.dates, key);
    }
  }

  lemma DatesThere(a: Assembly, st: Story, key: string)
    requires TellsStory(a, st) && key in st.parts
    ensures key in st.dates
  {}

  lemma CallParentIsTarget(a: Assembly, call: string, name: string, parent: string)
    ensures Target(a.ordered, ToolCallStart(call, name, parent)) == Some(CallParent(a, call, parent))
  {}

  lemma StartedStory(a: Assembly, st: Story, f: Frame)
    requires TellsStory(a, st) && f.event.ToolCallStart?
    ensures TellsStory(CallStarted(a, f.event.toolCallId, f.event.toolCallName, f.event.parentMessageId, f.at), Longer(st, a.sealed, f))
  {
    hide TellsStory, TellsPart, TellsParts, LateInOrder, Stamped, CallParent, Target;
    var call := f.event.toolCallId;
    var p := CallParent(a, call, f.event.parentMessageId);
    var key, m := MessageKey(p), Stamped(a, p, f.at);
    var ps := PartsIn(st, key);
    assert a.ordered == st.order by { SameOrder(a, st); }
    CallParentIsTarget(a, call, f.event.toolCallName, f.event.parentMessageId);
    StampedTells(a, st, p, f.at);
    var b := NewBlock(CallBlock(call), ToolCall, Millis(f.at)).(name := f.event.toolCallName);
    CalledTells(b, call);
    AppendTells(m.timeline, ps, b, Called(call));
    LateBeforeCall(ps, call);
    SameLength(m.timeline, ps);
    PutTells(a, st, key, m.(timeline := m.timeline + [b]), m.createdAt, ps + [Called(call)]);
    var st1 := st.(order := if key in st.parts then st.order else st.order + [key], dates := st.dates[key := m.createdAt], parts := st.parts[key := ps + [Called(call)]]);
    CallAdded(Put(a, key, m.(timeline := m.timeline + [b])), st1, call, BlockRef(key, |ps|));
    if key in st.parts && (ps != [] || p in a.sealed) {
      DatesThere(a, st, key);
      SameDates(st.dates, key);
    }
  }

  lemma SameOrder(a: Assembly, st: Story)
    requires TellsStory(a, st)
    ensures a.ordered == st.order
  {}

  lemma CalledTells(b: Block, call: string)
    requires b.kind.ToolCall? && b.id == CallBlock(call)
    ensures TellsPart(b, Called(call))
  {}

  lemma LateBeforeCall(ps: seq<Part>, call: string)
    requires LateInOrder(ps)
    ensures LateInOrder(ps + [Called(call)])
  {}

  lemma CallAdded(a: Assembly, st: Story, call: string, ref: BlockRef)
    requires TellsStory(a, st) && ref.message in st.parts && ref.index < |st.parts[ref.message]| && st.parts[ref.message][ref.index] == Called(call)
    ensures TellsStory(a.(calls := a.calls[call := ref]), st.(calls := st.calls[call := ref]))
  {
    hide TellsMessage;
  }

  lemma EditedStory(a: Assembly, st: Story, call: string, b: Block)
    requires TellsStory(a, st) && HasCall(a, call) && b.kind == CallBlockOf(a, call).kind && b.id == CallBlockOf(a, call).id
    ensures TellsStory(WithCallBlock(a, call, b), st)
  {
    hide TellsParts, LateInOrder;
    var ref := a.calls[call];
    var m, ps := a.byId[ref.message], st.parts[ref.message];
    assert TellsMessage(m, st.dates[ref.message], ps);
    PartTells(m.timeline, ps, ref.index);
    ReplaceTells(m.timeline, ps, ref.index, b, Called(call));
    assert ps[ref.index := Called(call)] == ps;
  }

  /** One event makes of the messages what it makes of their story. */
  lemma ApplyStory(a: Assembly, st: Story, f: Frame)
    requires TellsStory(a, st)
    ensures TellsStory(Apply(a, f), Longer(st, a.sealed, f)) && Apply(a, f).sealed == a.sealed
  {
    hide TellsStory, Streamed, CallStarted, WithCallBlock, TrimReasoning, TrimActivity, Lines;
    KeepsSeals(a, f);
    match f.event
    case TextChunk(id, _, _) => StreamedStory(a, st, id, Content, f);
    case ReasoningChunk(id, _) => StreamedStory(a, st, TrimReasoning(id), Thinking, f);
    case ToolCallStart(_, _, _) => StartedStory(a, st, f);
    case Other(_, _, _) =>
    case _ =>
      var call := CallOf(f.event);
      if HasCall(a, call) { EditedStory(a, st, call, Edited(CallBlockOf(a, call), f)); }
  }

  lemma KeepsSeals(a: Assembly, f: Frame)
    ensures Apply(a, f).sealed == a.sealed
  {
    hide Extended, Stamped, TrimReasoning, TrimActivity, Lines, CallParent;
  }

  // ---- Every event ----

  /**
   Whatever the events, the messages are those of their story: the same ones, in the order
   they were first added to and dated from then; and each timeline holds a block for each
   part, with the text of the deltas the part was given, late reasoning last, and with the
   times of the first and the last of them.
   */
  lemma {:induction false} AssembledStory(a: Assembly, fs: seq<Frame>)
    requires a.calls == map[]
    ensures TellsStory(StreamRuns.Assembled(a, fs), Told(StoryOf(a), a.sealed, fs)) && StreamRuns.Assembled(a, fs).sealed == a.sealed
  {
    hide TellsStory, Apply, Longer, StoryOf;
    if fs == [] {
      StartsStory(a);
    } else {
      var n := |fs| - 1;
      AssembledStory(a, fs[..n]);
      ApplyStory(StreamRuns.Assembled(a, fs[..n]), Told(StoryOf(a), a.sealed, fs[..n]), fs[n]);
    }
  }

  lemma StartsStory(a: Assembly)
    requires a.calls == map[]
    ensures TellsStory(a, StoryOf(a))
  {
    hide TellsMessage;
    forall key | key in a.byId ensures TellsMessage(a.byId[key], a.byId[key].createdAt, Bases(a.byId[key].timeline)) {
      BasesTell(a.byId[key]);
    }
  }

  lemma BasesTell(m: Message)
    ensures TellsMessage(m, m.createdAt, Bases(m.timeline))
  {
    hide IsLast, Never;
    forall i | 0 <= i < |m.timeline| ensures TellsPart(m.timeline[i], Spoken(m.timeline[i], [], [])) {
      NoLast(NotBefore(m.timeline[i].startedAt));
    }
  }

  /** The same of what a run's assembler holds, for every schedule of holds and folds. */
  lemma RunStory(budget: nat, actions: seq<StreamRuns.Timed>, env: Streaming.Env, seed: Assembly, reply: Message)
    requires Timeline.Valid(seed) && (seed == EMPTY || seed == Seeded(reply)) && StreamRuns.AllAllowed(budget, actions, env, seed)
    ensures var r := StreamRuns.After(budget, actions, env);
            !StreamRuns.ClosedBy(actions) && r.s.folding && r.s.pending.None? ==>
              TellsStory(r.s.observed, Told(StoryOf(seed), seed.sealed, StreamRuns.EmittedBy(actions)))
  {
    hide StreamRuns.After, StreamRuns.AllAllowed, StreamRuns.Assembled, TellsStory, Timeline.Valid, Told, StoryOf;
    StreamRuns.CoalescingRefines(budget, actions, env, seed);
    AssembledStory(seed, StreamRuns.EmittedBy(actions));
  }

  // ---- What the story of a new reply comes to ----

  function NewStory(fs: seq<Frame>): Story { Told(StoryOf(EMPTY), map[], fs) }

  ghost predicate InOrder(fs: seq<Frame>) { forall i, j :: 0 <= i <= j < |fs| ==> fs[i].at <= fs[j].at }

  /** A part made by its first delta, its deltas as they came. */
  ghost predicate Began(p: Part, now: nat) {
    p.Spoken? ==>
      && p.deltas != [] && InOrder(p.deltas) && p.deltas[|p.deltas| - 1].at <= now
      && p.base == NewBlock(p.base.id, p.base.kind, if p.base.kind.Thinking? then Millis(p.deltas[0].at) else 0)
  }

  ghost predicate AllBegan(st: Story, now: nat) {
    forall key, i :: key in st.parts && 0 <= i < |st.parts[key]| ==> Began(st.parts[key][i], now)
  }

  lemma BeganLater(p: Part, now: nat, later: nat)
    requires Began(p, now) && now <= later
    ensures Began(p, later)
  {}

  lemma BeganMore(p: Part, now: nat, f: Frame)
    requires p.Spoken? && Began(p, now) && now <= f.at
    ensures Began(p.(deltas := p.deltas + [f]), f.at) && Began(p.(late := p.late + [f]), f.at)
  {}

  lemma DeltaBegan(ps: seq<Part>, id: string, kind: BlockKind, f: Frame, now: nat)
    requires !kind.ToolCall? && now <= f.at && forall i :: 0 <= i < |ps| ==> Began(ps[i], now)
    ensures forall i :: 0 <= i < |WithDelta(ps, id, 0, kind, f)| ==> Began(WithDelta(ps, id, 0, kind, f)[i], f.at)
  {
    hide InOrder, Millis;
    var n, ps' := |ps|, WithDelta(ps, id, 0, kind, f);
    forall i | 0 <= i < |ps'| ensures Began(ps'[i], f.at) {
      if i < n {
        BeganLater(ps[i], now, f.at);
        if ps[i].Spoken? { BeganMore(ps[i], now, f); }
      } else {
        assert InOrder([f]) by { OneInOrder(f); }
      }
    }
  }

  lemma OneInOrder(f: Frame)
    ensures InOrder([f])
  {}

  lemma {:induction false} NewBegan(fs: seq<Frame>, now: nat)
    requires InOrder(fs) && (fs != [] ==> fs[|fs| - 1].at <= now)
    ensures AllBegan(NewStory(fs), now)
  {
    hide Began, WithDelta, Target;
    if fs != [] {
      var n, f := |fs| - 1, fs[|fs| - 1];
      NewBegan(fs[..n], f.at);
      var st, st' := NewStory(fs[..n]), NewStory(fs);
      forall key, i | key in st'.parts && 0 <= i < |st'.parts[key]| ensures Began(st'.parts[key][i], now) {
        LongerBegan(st, f, key, i);
        BeganLater(st'.parts[key][i], f.at, now);
      }
    }
  }

  lemma LongerBegan(st: Story, f: Frame, key: string, i: nat)
    requires AllBegan(st, f.at) && key in Longer(st, map[], f).parts && i < |Longer(st, map[], f).parts[key]|
    ensures Began(Longer(st, map[], f).parts[key][i], f.at)
  {
    hide Began, WithDelta, Target;
    var target := Target(st.order, f.event);
    if target.Some? && MessageKey(target.value) == key && !f.event.ToolCallStart? {
      DeltaBegan(PartsIn(st, key), target.value, if f.event.TextChunk? then Content else Thinking, f, f.at);
    } else if f.event.ToolCallStart? && target.Some? && MessageKey(target.value) == key {
      CallBegan(f.event.toolCallId, f.at);
    }
  }

  lemma CallBegan(call: string, now: nat)
    ensures Began(Called(call), now)
  {}

  /**
   With a clock that does not run back, a new reply's block of thinking starts with its
   first delta and ends with its last, late reasoning apart, however the deltas were cut.
   */
  lemma ThinkingIsTimed(fs: seq<Frame>, key: string, i: nat)
    requires InOrder(fs) && key in StreamRuns.Assembled(EMPTY, fs).byId
    requires key in NewStory(fs).parts && i < |NewStory(fs).parts[key]|
    ensures var m := StreamRuns.Assembled(EMPTY, fs).byId[key]; i < |m.timeline|
    ensures var b, p := StreamRuns.Assembled(EMPTY, fs).byId[key].timeline[i], NewStory(fs).parts[key][i];
            b.kind == PartKind(p)
            && (b.kind.Thinking? && p.Spoken? ==>
                  && p.deltas != [] && b.startedAt == Millis(p.deltas[0].at)
                  && (b.startedAt > 0 ==> b.endedAt == Millis(p.deltas[|p.deltas| - 1].at) && b.duration == (b.endedAt - b.startedAt) as real / 1000.0))
  {
    hide StreamRuns.Assembled, Told, Began, TellsPart, LateInOrder, CallsThere;
    var a, st := StreamRuns.Assembled(EMPTY, fs), NewStory(fs);
    AssembledStory(EMPTY, fs);
    NewBegan(fs, if fs == [] then 0 else fs[|fs| - 1].at);
    assert TellsMessage(a.byId[key], st.dates[key], st.parts[key]);
    SameKinds(a.byId[key].timeline, st.parts[key]);
    TimedByDeltas(a.byId[key].timeline[i], st.parts[key][i], if fs == [] then 0 else fs[|fs| - 1].at);
  }

  lemma TimedByDeltas(b: Block, p: Part, now: nat)
    requires TellsPart(b, p) && Began(p, now)
    ensures PartKind(p).Thinking? ==>
              && p.deltas != [] && b.startedAt == Millis(p.deltas[0].at)
              && (b.startedAt > 0 ==> b.endedAt == Millis(p.deltas[|p.deltas| - 1].at) && b.duration == (b.endedAt - b.startedAt) as real / 1000.0)
  {
    hide Deltas;
    if PartKind(p).Thinking? {
      var n := |p.deltas| - 1;
      assert Millis(p.deltas[0].at) <= Millis(p.deltas[n].at);
      assert IsLast(p.deltas, NotBefore(p.base.startedAt), n);
    }
  }

  /** The event at i adds to the message of a key. */
  ghost predicate Adds(fs: seq<Frame>, i: int, key: string) {
    && 0 <= i < |fs|
    && var target := Target(NewStory(fs[..i]).order, fs[i].event); target.Some? && MessageKey(target.value) == key
  }

  ghost predicate AddsFirst(fs: seq<Frame>, i: int, key: string) {
    Adds(fs, i, key) && forall j :: 0 <= j < i ==> !Adds(fs, j, key)
  }

  lemma AddsBefore(fs: seq<Frame>, n: nat, i: int, key: string)
    requires n <= |fs| && i < n
    ensures Adds(fs[..n], i, key) <==> Adds(fs, i, key)
    ensures AddsFirst(fs[..n], i, key) <==> AddsFirst(fs, i, key)
  {
    hide NewStory, Target;
    assert 0 <= i ==> fs[..n][..i] == fs[..i];
    forall j | 0 <= j < i ensures Adds(fs[..n], j, key) <==> Adds(fs, j, key) { assert fs[..n][..j] == fs[..j]; }
  }

  lemma NewStoryMore(fs: seq<Frame>)
    requires fs != []
    ensures NewStory(fs) == Longer(NewStory(fs[..|fs| - 1]), map[], fs[|fs| - 1])
  {}

  /** What an event adds to the messages there are. */
  lemma LongerShape(st: Story, f: Frame)
    ensures var st', target := Longer(st, map[], f), Target(st.order, f.event);
            if target.None? then st' == st
            else
              var key := MessageKey(target.value);
              && st'.parts.Keys == st.parts.Keys + {key} && st'.parts[key] != []
              && (forall k :: k in st.parts && k != key ==> st'.parts[k] == st.parts[k])
              && st'.order == (if key in st.parts then st.order else st.order + [key])
              && st'.dates == (if key in st.parts && st.parts[key] != [] then st.dates else st.dates[key := f.at])
  {
    hide Target;
  }

  lemma {:induction false} NoEmptyParts(fs: seq<Frame>)
    ensures forall key :: key in NewStory(fs).parts ==> NewStory(fs).parts[key] != []
  {
    hide Target, Longer;
    if fs != [] {
      NoEmptyParts(fs[..|fs| - 1]);
      NewStoryMore(fs);
      LongerShape(NewStory(fs[..|fs| - 1]), fs[|fs| - 1]);
    }
  }

  /** A new reply has just the messages some event adds to, each dated by the first that does. */
  lemma {:induction false} DatedByFirst(fs: seq<Frame>, key: string)
    ensures key in NewStory(fs).parts <==> exists i :: Adds(fs, i, key)
    ensures key in NewStory(fs).dates <==> key in NewStory(fs).parts
    ensures forall i :: AddsFirst(fs, i, key) ==> key in NewStory(fs).dates && NewStory(fs).dates[key] == fs[i].at
  {
    hide Target, Longer, AddsFirst, Adds;
    if fs == [] {
      AddsNothing(key);
    } else {
      var n := |fs| - 1;
      DatedByFirst(fs[..n], key);
      NoEmptyParts(fs[..n]);
      NewStoryMore(fs);
      LongerShape(NewStory(fs[..n]), fs[n]);
      hide NewStory;
      AddsMore(fs, key);
    }
  }

  lemma AddsNothing(key: string)
    ensures forall i :: !Adds([], i, key) && !AddsFirst([], i, key)
  {}

  /** What the last event changes of which events add to a message, and which of them first. */
  lemma AddsMore(fs: seq<Frame>, key: string)
    requires fs != []
    ensures var n := |fs| - 1;
            var target := Target(NewStory(fs[..n]).order, fs[n].event);
            var now := target.Some? && MessageKey(target.value) == key;
            && ((exists i :: Adds(fs, i, key)) <==> (exists i :: Adds(fs[..n], i, key)) || now)
            && (forall i :: AddsFirst(fs, i, key) ==>
                  0 <= i <= n && if i == n then now && !exists j :: Adds(fs[..n], j, key) else AddsFirst(fs[..n], i, key) && fs[..n][i] == fs[i])
            && ((exists i :: Adds(fs[..n], i, key)) ==> forall i :: AddsFirst(fs, i, key) ==> i < n)
  {
    hide NewStory, Target;
    var n := |fs| - 1;
    forall i | i < n ensures Adds(fs[..n], i, key) <==> Adds(fs, i, key) { AddsBefore(fs, n, i, key); }
    forall i | AddsFirst(fs, i, key) && i < n ensures AddsFirst(fs[..n], i, key) { AddsBefore(fs, n, i, key); }
    if i :| Adds(fs[..n], i, key) { assert Adds(fs, i, key); }
    if j :| Adds(fs, j, key) && j < n { assert Adds(fs[..n], j, key); }
    var target := Target(NewStory(fs[..n]).order, fs[n].event);
    if target.Some? && MessageKey(target.value) == key { assert Adds(fs, n, key); }
  }

  /** Messages come in the order they were first added to, each once. */
  lemma {:induction false} OrderedByFirst(fs: seq<Frame>, k: nat, l: nat)
    requires k < l < |NewStory(fs).order|
    ensures NewStory(fs).order[k] != NewStory(fs).order[l]
    ensures forall i, j :: AddsFirst(fs, i, NewStory(fs).order[k]) && AddsFirst(fs, j, NewStory(fs).order[l]) ==> i < j
  {
    hide Target, Longer, AddsFirst, Adds, NewStory;
    NotEmpty(fs);
    var n := |fs| - 1;
    var st, st' := NewStory(fs[..n]), NewStory(fs);
    NewStoryMore(fs);
    LongerShape(st, fs[n]);
    OrderIsThere(fs[..n]);
    var x, y := st'.order[k], st'.order[l];
    DatedByFirst(fs[..n], x);
    DatedByFirst(fs[..n], y);
    AddsMore(fs, x);
    AddsMore(fs, y);
    if l < |st.order| { OrderedByFirst(fs[..n], k, l); }
  }

  lemma NotEmpty(fs: seq<Frame>)
    requires |NewStory(fs).order| > 0
    ensures fs != []
  {}

  lemma {:induction false} OrderIsThere(fs: seq<Frame>)
    ensures forall k :: 0 <= k < |NewStory(fs).order| ==> NewStory(fs).order[k] in NewStory(fs).parts
  {
    hide Target, Longer;
    if fs != [] {
      OrderIsThere(fs[..|fs| - 1]);
      NewStoryMore(fs);
      LongerShape(NewStory(fs[..|fs| - 1]), fs[|fs| - 1]);
    }
  }

  // ---- What becomes of a continued reply ----

  /** How many of a reply's blocks take nothing more when it is continued: all but a trailing block of content. */
  function Closed(reply: Message): nat {
    var n := |reply.timeline|;
    if n > 0 && reply.timeline[n - 1].kind.Content? then n - 1 else n
  }

  /** The reply's own blocks are the first parts, the closed ones as they were. */
  ghost predicate KeepsReply(ps: seq<Part>, reply: Message) {
    && |ps| >= |reply.timeline|
    && forall i :: 0 <= i < |reply.timeline| ==>
         ps[i].Spoken? && ps[i].base == reply.timeline[i] && (i < Closed(reply) ==> ps[i].deltas == [] && ps[i].late == [])
  }

  lemma DeltaKeepsReply(ps: seq<Part>, reply: Message, id: string, kind: BlockKind, f: Frame)
    requires KeepsReply(ps, reply) && !kind.ToolCall?
    ensures KeepsReply(WithDelta(ps, id, Closed(reply), kind, f), reply)
  {}

  lemma LongerKeepsReply(st: Story, reply: Message, f: Frame)
    requires reply.id != "msg_orphan" && KeepsReply(PartsIn(st, reply.id), reply) && (reply.id in st.parts)
    requires reply.id in st.dates && st.dates[reply.id] == reply.createdAt
    ensures var st', sealed := Longer(st, map[reply.id := Closed(reply)], f), map[reply.id := Closed(reply)];
            && KeepsReply(PartsIn(st', reply.id), reply) && reply.id in st'.parts
            && reply.id in st'.dates && st'.dates[reply.id] == reply.createdAt
  {
    hide WithDelta, Target, KeepsReply;
    var target := Target(st.order, f.event);
    if target.Some? && MessageKey(target.value) == reply.id {
      var ps := PartsIn(st, reply.id);
      DeltaKeepsReply(ps, reply, target.value, if f.event.TextChunk? then Content else Thinking, f);
      CallKeepsReply(ps, reply, if f.event.ToolCallStart? then f.event.toolCallId else "");
    }
  }

  lemma CallKeepsReply(ps: seq<Part>, reply: Message, call: string)
    requires KeepsReply(ps, reply)
    ensures KeepsReply(ps + [Called(call)], reply)
  {}

  lemma {:induction false} ToldKeepsReply(reply: Message, fs: seq<Frame>)
    requires reply.id != "msg_orphan"
    ensures var st := Told(StoryOf(Seeded(reply)), map[reply.id := Closed(reply)], fs);
            && KeepsReply(PartsIn(st, reply.id), reply) && reply.id in st.parts
            && reply.id in st.dates && st.dates[reply.id] == reply.createdAt
  {
    hide Longer;
    if fs != [] {
      var n := |fs| - 1;
      ToldKeepsReply(reply, fs[..n]);
      LongerKeepsReply(Told(StoryOf(Seeded(reply)), map[reply.id := Closed(reply)], fs[..n]), reply, fs[n]);
    }
  }

  /** A continued reply keeps its date and every block it had, but for a trailing block of content, which only takes more text. */
  lemma ContinuedKeeps(reply: Message, fs: seq<Frame>, i: nat)
    requires reply.id != "msg_orphan" && i < |reply.timeline|
    ensures var a := StreamRuns.Assembled(Seeded(reply), fs);
            && reply.id in a.byId && a.byId[reply.id].createdAt == reply.createdAt && i < |a.byId[reply.id].timeline|
            && var b := a.byId[reply.id].timeline[i];
               if i == |reply.timeline| - 1 && reply.timeline[i].kind.Content?
               then b == reply.timeline[i].(content := b.content) && reply.timeline[i].content <= b.content
               else b == reply.timeline[i]
  {
    hide StreamRuns.Assembled, Told, LateInOrder, CallsThere, StoryOf, Deltas;
    var a, sealed := StreamRuns.Assembled(Seeded(reply), fs), map[reply.id := Closed(reply)];
    AssembledStory(Seeded(reply), fs);
    assert Seeded(reply).sealed == sealed;
    ToldKeepsReply(reply, fs);
    var st := Told(StoryOf(Seeded(reply)), sealed, fs);
    assert TellsMessage(a.byId[reply.id], st.dates[reply.id], st.parts[reply.id]);
    KeptBlock(a.byId[reply.id].timeline, st.parts[reply.id], reply, i);
  }

  lemma KeptBlock(blocks: seq<Block>, ps: seq<Part>, reply: Message, i: nat)
    requires TellsParts(blocks, ps) && KeepsReply(ps, reply) && i < |reply.timeline|
    ensures i < |blocks|
    ensures var b := blocks[i];
            if i == |reply.timeline| - 1 && reply.timeline[i].kind.Content?
            then b == reply.timeline[i].(content := b.content) && reply.timeline[i].content <= b.content
            else b == reply.timeline[i]
  {
    hide Deltas, IsLast;
    PartTells(blocks, ps, i);
    NoDeltas();
  }

  /** The first text of a continued reply goes into its trailing block of content, if it has one. */
  lemma ContinuedExtends(reply: Message, f: Frame)
    requires f.event.TextChunk? && f.event.messageId == reply.id != "" && Closed(reply) < |reply.timeline|
    ensures var n, a := |reply.timeline| - 1, StreamRuns.Assembled(Seeded(reply), [f]);
            && reply.id in a.byId
            && a.byId[reply.id].timeline == reply.timeline[n := reply.timeline[n].(content := reply.timeline[n].content + f.event.delta)]
  {
    assert [f][..0] == [] && StreamRuns.Assembled(Seeded(reply), []) == Seeded(reply);
  }
}
