/**
 MessageAssembler of internal/domain/timeline.go: a reply's messages built from
 the events of its run. The functions give the assembled messages as a value;
 class MessageAssembler updates them in place, as the source does.
 */
module Timeline {
  import opened Options
  import opened Events

  datatype BlockKind = Content | Thinking | ToolCall

  datatype BlockId = StreamedBlock(message: string, kind: BlockKind, index: nat) | CallBlock(call: string)

  datatype Block = Block(
    id: BlockId,
    kind: BlockKind,
    content: string,
    name: string,
    arguments: string,
    complete: bool,
    result: string,
    metadata: string,
    display: Option<Display>,
    progress: seq<Value>,
    startedAt: nat,
    endedAt: nat,
    duration: real)

  datatype Message = Message(id: string, createdAt: nat, content: string, timeline: seq<Block>)

  /** A call's block: the message it is in and its index, which never changes. */
  datatype BlockRef = BlockRef(message: string, index: nat)

  datatype Assembly = Assembly(
    ordered: seq<string>,
    byId: map<string, Message>,
    calls: map<string, BlockRef>,
    sealed: map<string, nat>)

  const EMPTY := Assembly([], map[], map[], map[])

  /** Every ordered message is held, and every call's block is where it is said to be. */
  ghost predicate Valid(a: Assembly) {
    && (forall i :: 0 <= i < |a.ordered| ==> a.ordered[i] in a.byId)
    && (forall id :: id in a.byId ==> a.byId[id].id == id)
    && (forall c :: c in a.calls ==>
          && a.calls[c].message in a.byId
          && a.calls[c].index < |a.byId[a.calls[c].message].timeline|)
    && (forall id :: id in a.sealed ==>
          id != "" && id in a.byId && a.sealed[id] <= |a.byId[id].timeline|)
  }

  function NewBlock(id: BlockId, kind: BlockKind, startedAt: nat): Block {
    Block(id, kind, "", "", "", false, "", "", None, [], startedAt, 0, 0.0)
  }

  /** The assembly a continuation starts from: only a trailing content block takes new text. */
  function Seeded(reply: Message): Assembly {
    var n := |reply.timeline|;
    var sealed := if n > 0 && reply.timeline[n - 1].kind.Content? then n - 1 else n;
    Assembly([reply.id], map[reply.id := reply], map[], map[reply.id := sealed])
  }

  function MessageKey(id: string): string {
    if id == "" then "msg_orphan" else id
  }

  function SealedBlocks(a: Assembly, id: string): nat {
    if id in a.sealed then a.sealed[id] else 0
  }

  /** The message of an id, made when missing and dated by its first event. */
  function Stamped(a: Assembly, id: string, at: nat): Message {
    var key := MessageKey(id);
    var m := if key in a.byId then a.byId[key] else Message(key, at, "", []);
    if id !in a.sealed && |m.timeline| == 0 then m.(createdAt := at) else m
  }

  function Put(a: Assembly, key: string, m: Message): Assembly {
    a.(ordered := if key in a.byId then a.ordered else a.ordered + [key], byId := a.byId[key := m])
  }

  /** Whether reasoning is the tail of the reasoning before the reply's text. */
  predicate IsLate(blocks: seq<Block>, sealed: nat, kind: BlockKind) {
    var n := |blocks|;
    kind.Thinking? && n - 2 >= sealed && n >= 2 && blocks[n - 1].kind.Content? && blocks[n - 2].kind.Thinking?
  }

  function Timed(b: Block, at: nat): Block {
    if b.startedAt > 0 && at >= b.startedAt
    then b.(endedAt := at, duration := (at - b.startedAt) as real / 1000.0)
    else b
  }

  /** A message with streamed text or reasoning added to its timeline. */
  function Extended(m: Message, id: string, sealed: nat, kind: BlockKind, delta: string, at: nat): Message
    requires !kind.ToolCall?
  {
    var blocks := m.timeline;
    var n := |blocks|;
    if IsLate(blocks, sealed, kind) then
      m.(timeline := blocks[n - 2 := blocks[n - 2].(content := blocks[n - 2].content + delta)])
    else
      var grown :=
        if n <= sealed || blocks[n - 1].kind != kind
        then blocks + [NewBlock(StreamedBlock(id, kind, n), kind, if kind.Thinking? then Millis(at) else 0)]
        else blocks;
      var last := grown[|grown| - 1].(content := grown[|grown| - 1].content + delta);
      if kind.Content? then
        m.(timeline := grown[|grown| - 1 := last], content := m.content + delta)
      else
        m.(timeline := grown[|grown| - 1 := Timed(last, Millis(at))])
  }

  function Streamed(a: Assembly, id: string, kind: BlockKind, delta: string, at: nat): Assembly
    requires !kind.ToolCall?
  {
    Put(a, MessageKey(id), Extended(Stamped(a, id, at), id, SealedBlocks(a, id), kind, delta, at))
  }

  const REASONING_SUFFIX := "-reasoning"

  function TrimReasoning(id: string): string {
    var n := |id| - |REASONING_SUFFIX|;
    if n >= 0 && id[n..] == REASONING_SUFFIX then id[..n] else id
  }

  const ACTIVITY_PREFIX := "act_"

  function TrimActivity(id: string): string {
    var n := |ACTIVITY_PREFIX|;
    if |id| >= n && id[..n] == ACTIVITY_PREFIX then id[n..] else id
  }

  function CallParent(a: Assembly, call: string, parent: string): string {
    var p := if parent == "" && |a.ordered| > 0 then a.ordered[|a.ordered| - 1] else parent;
    if p == "" then "msg_" + call else p
  }

  function CallStarted(a: Assembly, call: string, name: string, parent: string, at: nat): Assembly {
    var p := CallParent(a, call, parent);
    var m := Stamped(a, p, at);
    var block := NewBlock(CallBlock(call), ToolCall, Millis(at)).(name := name);
    var a' := Put(a, MessageKey(p), m.(timeline := m.timeline + [block]));
    a'.(calls := a.calls[call := BlockRef(MessageKey(p), |m.timeline|)])
  }

  predicate HasCall(a: Assembly, call: string) {
    && call in a.calls
    && a.calls[call].message in a.byId
    && a.calls[call].index < |a.byId[a.calls[call].message].timeline|
  }

  function CallBlockOf(a: Assembly, call: string): Block
    requires HasCall(a, call)
  {
    a.byId[a.calls[call].message].timeline[a.calls[call].index]
  }

  function WithCallBlock(a: Assembly, call: string, block: Block): Assembly
    requires HasCall(a, call)
  {
    var ref := a.calls[call];
    var m := a.byId[ref.message];
    a.(byId := a.byId[ref.message := m.(timeline := m.timeline[ref.index := block])])
  }

  function Settled(b: Block, e: Event, at: nat): Block
    requires e.ToolCallResult?
  {
    var b1 := b.(result := e.content);
    var b2 := if Millis(at) >= b1.startedAt then b1.(endedAt := Millis(at)) else b1;
    var b3 := if |e.metadata| > 0 then b2.(metadata := e.metadata) else b2;
    if e.display.Some? then b3.(display := e.display) else b3
  }

  /** The lines a patch adds to a call's progress. */
  function Lines(patch: seq<Patch>): seq<Value> {
    if patch == [] then []
    else
      var rest := Lines(patch[..|patch| - 1]);
      var op := patch[|patch| - 1];
      if op.path == "/output/-" then rest + [op.value] else rest
  }

  /** Events that edit the block of a call that has started. */
  predicate EditsCall(e: Event) {
    e.ToolCallArgs? || e.ToolCallEnd? || e.ToolCallResult? || e.ActivitySnapshot? || e.ActivityDelta?
  }

  function CallOf(e: Event): string
    requires EditsCall(e)
  {
    if e.ActivitySnapshot? || e.ActivityDelta? then TrimActivity(e.messageId) else e.toolCallId
  }

  function Edited(b: Block, f: Frame): Block
    requires EditsCall(f.event)
  {
    match f.event
    case ToolCallArgs(_, delta) => b.(arguments := b.arguments + delta)
    case ToolCallEnd(_) => b.(complete := true)
    case ToolCallResult(_, _, _, _, _) => Settled(b, f.event, f.at)
    case ActivitySnapshot(_, _, display) => if display.Some? then b.(display := display) else b
    case ActivityDelta(_, patch, _) => b.(progress := b.progress + Lines(patch))
  }

  function Apply(a: Assembly, f: Frame): Assembly {
    match f.event
    case TextChunk(id, _, delta) => Streamed(a, id, Content, delta, f.at)
    case ReasoningChunk(id, delta) => Streamed(a, TrimReasoning(id), Thinking, delta, f.at)
    case ToolCallStart(call, name, parent) => CallStarted(a, call, name, parent, f.at)
    case Other(_, _, _) => a
    case _ =>
      var call := CallOf(f.event);
      if HasCall(a, call) then WithCallBlock(a, call, Edited(CallBlockOf(a, call), f)) else a
  }

  /** The messages as Messages returns them, in the order they began. */
  function Messages(a: Assembly): seq<Message>
    requires Valid(a)
  {
    seq(|a.ordered|, i requires 0 <= i < |a.ordered| => a.byId[a.ordered[i]])
  }

  // ---- Adjacent deltas and their join ----

  /** Whether a message's timeline ends with the block the next delta of this kind extends. */
  predicate Continues(m: Message, sealed: nat, kind: BlockKind) {
    var n := |m.timeline|;
    || IsLate(m.timeline, sealed, kind)
    || (n > sealed && m.timeline[n - 1].kind == kind)
  }

  lemma ExtendedContinues(m: Message, id: string, sealed: nat, kind: BlockKind, x: string, t: nat)
    requires !kind.ToolCall?
    ensures Continues(Extended(m, id, sealed, kind, x, t), sealed, kind) || |m.timeline| < sealed
    ensures |Extended(m, id, sealed, kind, x, t).timeline| > 0
    ensures |Extended(m, id, sealed, kind, x, t).timeline| >= |m.timeline|
    ensures Extended(m, id, sealed, kind, x, t).id == m.id
  {}

  /** Two deltas to the block a message already ends with apply as one at the later time. */
  lemma ExtendedJoins(m: Message, id: string, sealed: nat, kind: BlockKind, x: string, y: string, t1: nat, t2: nat)
    requires !kind.ToolCall? && t1 <= t2 && Continues(m, sealed, kind)
    ensures Extended(Extended(m, id, sealed, kind, x, t1), id, sealed, kind, y, t2)
         == Extended(m, id, sealed, kind, x + y, t2)
  {
    var n := |m.timeline|;
    var k := if IsLate(m.timeline, sealed, kind) then n - 2 else n - 1;
    assert (m.timeline[k].content + x) + y == m.timeline[k].content + (x + y);
    assert (m.content + x) + y == m.content + (x + y);
    assert Millis(t1) <= Millis(t2);
  }

  /** One delta applies as its two halves do at the same time. */
  lemma ExtendedSplits(m: Message, id: string, sealed: nat, kind: BlockKind, x: string, y: string, t: nat)
    requires !kind.ToolCall? && |m.timeline| >= sealed
    ensures Extended(m, id, sealed, kind, x + y, t)
         == Extended(Extended(m, id, sealed, kind, x, t), id, sealed, kind, y, t)
  {
    if Continues(m, sealed, kind) {
      ExtendedJoins(m, id, sealed, kind, x, y, t, t);
    } else {
      assert "" + (x + y) == ("" + x) + y;
      assert (m.content + x) + y == m.content + (x + y);
    }
  }

  /** Whether a delta of this key extends a block the assembly already ends its message with. */
  predicate Ready(a: Assembly, key: Key) {
    match key
    case MessageText(id) =>
      MessageKey(id) in a.byId && Continues(a.byId[MessageKey(id)], SealedBlocks(a, id), Content)
    case MessageReasoning(r) =>
      var id := TrimReasoning(r);
      MessageKey(id) in a.byId && Continues(a.byId[MessageKey(id)], SealedBlocks(a, id), Thinking)
    case _ => true
  }

  lemma SeededValid(reply: Message)
    requires reply.id != ""
    ensures Valid(Seeded(reply))
  {}

  /** Replacing a message by one with no fewer blocks keeps the assembly valid. */
  lemma PutValid(a: Assembly, key: string, m: Message)
    requires Valid(a) && m.id == key
    requires key in a.byId ==> |a.byId[key].timeline| <= |m.timeline|
    ensures Valid(Put(a, key, m))
  {
    var a' := Put(a, key, m);
    forall i | 0 <= i < |a'.ordered| ensures a'.ordered[i] in a'.byId {
      if i < |a.ordered| { assert a'.ordered[i] == a.ordered[i]; }
    }
  }

  lemma StampedShape(a: Assembly, id: string, at: nat)
    requires Valid(a)
    ensures Stamped(a, id, at).id == MessageKey(id)
    ensures MessageKey(id) in a.byId ==> Stamped(a, id, at).timeline == a.byId[MessageKey(id)].timeline
    ensures MessageKey(id) in a.byId && |a.byId[MessageKey(id)].timeline| > 0 ==> Stamped(a, id, at) == a.byId[MessageKey(id)]
    ensures SealedBlocks(a, id) <= |Stamped(a, id, at).timeline|
  {}

  lemma StreamedValid(a: Assembly, id: string, kind: BlockKind, delta: string, at: nat)
    requires Valid(a) && !kind.ToolCall?
    ensures Valid(Streamed(a, id, kind, delta, at))
    ensures var a' := Streamed(a, id, kind, delta, at);
            MessageKey(id) in a'.byId && Continues(a'.byId[MessageKey(id)], SealedBlocks(a', id), kind)
  {
    hide Extended, Valid;
    StampedShape(a, id, at);
    var m := Stamped(a, id, at);
    ExtendedContinues(m, id, SealedBlocks(a, id), kind, delta, at);
    PutValid(a, MessageKey(id), Extended(m, id, SealedBlocks(a, id), kind, delta, at));
  }

  lemma CallStartedValid(a: Assembly, call: string, name: string, parent: string, at: nat)
    requires Valid(a)
    ensures Valid(CallStarted(a, call, name, parent, at))
  {
    var p := CallParent(a, call, parent);
    StampedShape(a, p, at);
    var m := Stamped(a, p, at);
    var block := NewBlock(CallBlock(call), ToolCall, Millis(at)).(name := name);
    PutValid(a, MessageKey(p), m.(timeline := m.timeline + [block]));
    CallAddedValid(Put(a, MessageKey(p), m.(timeline := m.timeline + [block])), call, BlockRef(MessageKey(p), |m.timeline|));
  }

  lemma CallAddedValid(a: Assembly, call: string, ref: BlockRef)
    requires Valid(a) && ref.message in a.byId && ref.index < |a.byId[ref.message].timeline|
    ensures Valid(a.(calls := a.calls[call := ref]))
  {
    var a' := a.(calls := a.calls[call := ref]);
    forall c | c in a'.calls
      ensures a'.calls[c].message in a'.byId && a'.calls[c].index < |a'.byId[a'.calls[c].message].timeline|
    {
      if c != call { assert c in a.calls && a'.calls[c] == a.calls[c]; }
    }
  }

  lemma WithCallBlockValid(a: Assembly, call: string, block: Block)
    requires Valid(a) && HasCall(a, call)
    ensures Valid(WithCallBlock(a, call, block))
  {}

  /** Every event keeps the assembly valid, and a text delta leaves it ready for the next of its key. */
  lemma ApplyValid(a: Assembly, f: Frame)
    requires Valid(a)
    ensures Valid(Apply(a, f))
    ensures IsTextDelta(f.event) ==> Ready(Apply(a, f), KeyOf(f.event))
  {
    hide Valid, CallStarted, Extended, WithCallBlock;
    match f.event
    case TextChunk(id, _, delta) => StreamedValid(a, id, Content, delta, f.at);
    case ReasoningChunk(id, delta) => StreamedValid(a, TrimReasoning(id), Thinking, delta, f.at);
    case ToolCallStart(call, name, parent) => CallStartedValid(a, call, name, parent, f.at);
    case Other(_, _, _) =>
    case _ => ApplyCallValid(a, f);
  }

  lemma ApplyCallValid(a: Assembly, f: Frame)
    requires Valid(a) && EditsCall(f.event)
    ensures Valid(Apply(a, f))
  {
    hide Valid, Edited;
    var call := CallOf(f.event);
    if HasCall(a, call) { WithCallBlockValid(a, call, Edited(CallBlockOf(a, call), f)); }
  }

  lemma PutTwice(a: Assembly, key: string, m1: Message, m2: Message)
    ensures Put(Put(a, key, m1), key, m2) == Put(a, key, m2)
  {
    assert a.byId[key := m1][key := m2] == a.byId[key := m2];
  }

  lemma StreamedTwice(a: Assembly, id: string, kind: BlockKind, x: string, y: string, t1: nat, t2: nat)
    requires Valid(a) && !kind.ToolCall?
    ensures Streamed(Streamed(a, id, kind, x, t1), id, kind, y, t2)
         == Put(a, MessageKey(id),
                Extended(Extended(Stamped(a, id, t1), id, SealedBlocks(a, id), kind, x, t1), id, SealedBlocks(a, id), kind, y, t2))
  {
    hide Extended, Valid;
    var key, sealed := MessageKey(id), SealedBlocks(a, id);
    StampedShape(a, id, t1);
    ExtendedContinues(Stamped(a, id, t1), id, sealed, kind, x, t1);
    var m1 := Extended(Stamped(a, id, t1), id, sealed, kind, x, t1);
    PutValid(a, key, m1);
    StampedShape(Put(a, key, m1), id, t2);
    PutTwice(a, key, m1, Extended(m1, id, sealed, kind, y, t2));
  }

  lemma StreamedJoins(a: Assembly, id: string, kind: BlockKind, x: string, y: string, t1: nat, t2: nat)
    requires Valid(a) && !kind.ToolCall? && t1 <= t2
    requires MessageKey(id) in a.byId && Continues(a.byId[MessageKey(id)], SealedBlocks(a, id), kind)
    ensures Streamed(Streamed(a, id, kind, x, t1), id, kind, y, t2) == Streamed(a, id, kind, x + y, t2)
  {
    hide Extended, Valid;
    StampedShape(a, id, t1);
    StampedShape(a, id, t2);
    StreamedTwice(a, id, kind, x, y, t1, t2);
    ExtendedJoins(Stamped(a, id, t1), id, SealedBlocks(a, id), kind, x, y, t1, t2);
  }

  lemma StreamedSplits(a: Assembly, id: string, kind: BlockKind, x: string, y: string, t: nat)
    requires Valid(a) && !kind.ToolCall?
    ensures Streamed(a, id, kind, x + y, t) == Streamed(Streamed(a, id, kind, x, t), id, kind, y, t)
  {
    hide Extended, Valid;
    StampedShape(a, id, t);
    StreamedTwice(a, id, kind, x, y, t, t);
    ExtendedSplits(Stamped(a, id, t), id, SealedBlocks(a, id), kind, x, y, t);
  }

  function Joined(e1: Event, e2: Event): Event
    requires IsTextDelta(e1) && IsTextDelta(e2)
  {
    WithText(e1, e1.delta + e2.delta)
  }

  /** Two deltas to a text the assembly is extending apply as their join at the later time. */
  lemma ApplyJoins(a: Assembly, e1: Event, e2: Event, t1: nat, t2: nat)
    requires Valid(a) && IsTextDelta(e1) && IsTextDelta(e2) && KeyOf(e1) == KeyOf(e2)
    requires Ready(a, KeyOf(e1)) && t1 <= t2
    ensures Apply(Apply(a, Frame(e1, t1)), Frame(e2, t2)) == Apply(a, Frame(Joined(e1, e2), t2))
  {
    hide Streamed, Valid;
    match e1
    case TextChunk(id, _, x) => StreamedJoins(a, id, Content, x, e2.delta, t1, t2);
    case ReasoningChunk(id, x) => StreamedJoins(a, TrimReasoning(id), Thinking, x, e2.delta, t1, t2);
    case ToolCallArgs(call, x) => ArgumentsJoin(a, call, x, e2.delta, t1, t2);
  }

  lemma ArgumentsJoin(a: Assembly, call: string, x: string, y: string, t1: nat, t2: nat)
    ensures Apply(Apply(a, Frame(ToolCallArgs(call, x), t1)), Frame(ToolCallArgs(call, y), t2))
         == Apply(a, Frame(ToolCallArgs(call, x + y), t2))
    ensures Apply(a, Frame(ToolCallArgs(call, x + y), t1)) == Apply(a, Frame(ToolCallArgs(call, x + y), t2))
  {
    hide Streamed, CallStarted;
    if HasCall(a, call) {
      var b := CallBlockOf(a, call);
      assert (b.arguments + x) + y == b.arguments + (x + y);
      BlockTwice(a, call, b.(arguments := b.arguments + x), b.(arguments := b.arguments + (x + y)));
    }
  }

  lemma BlockTwice(a: Assembly, call: string, b1: Block, b2: Block)
    requires HasCall(a, call)
    ensures var a1 := WithCallBlock(a, call, b1);
            HasCall(a1, call) && CallBlockOf(a1, call) == b1 && WithCallBlock(a1, call, b2) == WithCallBlock(a, call, b2)
  {
    var ref := a.calls[call];
    var m := a.byId[ref.message];
    assert m.timeline[ref.index := b1][ref.index := b2] == m.timeline[ref.index := b2];
    var m1, m2 := m.(timeline := m.timeline[ref.index := b1]), m.(timeline := m.timeline[ref.index := b2]);
    assert a.byId[ref.message := m1][ref.message := m2] == a.byId[ref.message := m2];
  }

  /** A delta applies as its two halves do at the same time, whatever the assembly. */
  lemma ApplySplits(a: Assembly, e1: Event, e2: Event, t: nat)
    requires Valid(a) && IsTextDelta(e1) && IsTextDelta(e2) && KeyOf(e1) == KeyOf(e2)
    ensures Apply(a, Frame(Joined(e1, e2), t)) == Apply(Apply(a, Frame(e1, t)), Frame(e2, t))
  {
    hide Streamed, Valid;
    match e1
    case TextChunk(id, _, x) => StreamedSplits(a, id, Content, x, e2.delta, t);
    case ReasoningChunk(id, x) => StreamedSplits(a, TrimReasoning(id), Thinking, x, e2.delta, t);
    case ToolCallArgs(call, x) => ArgumentsJoin(a, call, x, e2.delta, t, t);
  }

  // ---- The assembler itself, updating its messages in place ----

  class MessageAssembler {
    var ordered: seq<string>
    var byId: map<string, Message>
    var calls: map<string, BlockRef>
    var sealed: map<string, nat>

    function View(): Assembly
      reads this
    {
      Assembly(ordered, byId, calls, sealed)
    }

    constructor ()
      ensures View() == EMPTY && Valid(View())
    {
      ordered, byId, calls, sealed := [], map[], map[], map[];
    }

    method Seed(reply: Message)
      requires View() == EMPTY && reply.id != ""
      modifies this
      ensures View() == Seeded(reply) && Valid(View())
    {
      SeededValid(reply);
      var blocks := |reply.timeline|;
      if blocks > 0 && reply.timeline[blocks - 1].kind.Content? {
        blocks := blocks - 1;
      }
      byId, sealed := byId[reply.id := reply], sealed[reply.id := blocks];
      ordered := ordered + [reply.id];
    }

    /** The message of an id, made when missing, dated when this event is its first. */
    method MessageAt(id: string, at: nat) returns (key: string)
      requires Valid(View())
      modifies this
      ensures key == MessageKey(id)
      ensures View() == Put(old(View()), key, Stamped(old(View()), id, at)) && key in byId
    {
      key := if id == "" then "msg_orphan" else id;
      if key !in byId {
        byId := byId[key := Message(key, at, "", [])];
        ordered := ordered + [key];
      }
      if id !in sealed && |byId[key].timeline| == 0 {
        byId := byId[key := byId[key].(createdAt := at)];
      }
      assert byId == old(byId)[key := Stamped(old(View()), id, at)];
    }

    /** Replaces a message already held. */
    method Replace(key: string, m: Message)
      requires key in byId
      modifies this`byId
      ensures View() == Put(old(View()), key, m) && key in byId
    {
      byId := byId[key := m];
    }

    static method Extend(m: Message, id: string, closed: nat, kind: BlockKind, delta: string, at: nat) returns (r: Message)
      requires !kind.ToolCall?
      ensures r == Extended(m, id, closed, kind, delta, at)
    {
      r := m;
      var blocks := m.timeline;
      var n := |blocks|;
      if kind.Thinking? && n >= 2 && n - 2 >= closed && blocks[n - 1].kind.Content? && blocks[n - 2].kind.Thinking? {
        r := r.(timeline := blocks[n - 2 := blocks[n - 2].(content := blocks[n - 2].content + delta)]);
        return;
      }
      if n <= closed || blocks[n - 1].kind != kind {
        blocks := blocks + [NewBlock(StreamedBlock(id, kind, n), kind, if kind.Thinking? then Millis(at) else 0)];
      }
      var last := blocks[|blocks| - 1];
      last := last.(content := last.content + delta);
      if kind.Content? {
        r := r.(content := r.content + delta);
      } else if last.startedAt > 0 && Millis(at) >= last.startedAt {
        last := last.(endedAt := Millis(at), duration := (Millis(at) - last.startedAt) as real / 1000.0);
      }
      r := r.(timeline := blocks[|blocks| - 1 := last]);
    }

    method AddStreamed(id: string, kind: BlockKind, delta: string, at: nat)
      requires Valid(View()) && !kind.ToolCall?
      modifies this
      ensures View() == Streamed(old(View()), id, kind, delta, at)
    {
      var key := MessageAt(id, at);
      var m := Extend(byId[key], id, if id in sealed then sealed[id] else 0, kind, delta, at);
      PutTwice(old(View()), key, byId[key], m);
      Replace(key, m);
    }

    method StartCall(call: string, name: string, parent: string, at: nat)
      requires Valid(View())
      modifies this
      ensures View() == CallStarted(old(View()), call, name, parent, at)
    {
      var p := parent;
      if p == "" && |ordered| > 0 { p := ordered[|ordered| - 1]; }
      if p == "" { p := "msg_" + call; }
      var key := MessageAt(p, at);
      var block := NewBlock(CallBlock(call), ToolCall, Millis(at)).(name := name);
      var m := byId[key].(timeline := byId[key].timeline + [block]);
      PutTwice(old(View()), key, byId[key], m);
      calls := calls[call := BlockRef(key, |byId[key].timeline|)];
      Replace(key, m);
    }

    /** Edits the block of a started call; anything else is left as it is. */
    method EditCall(f: Frame)
      requires EditsCall(f.event)
      modifies this`byId
      ensures View() == Apply(old(View()), f)
    {
      var call := CallOf(f.event);
      if call !in calls || calls[call].message !in byId { return; }
      var ref := calls[call];
      var m := byId[ref.message];
      if ref.index >= |m.timeline| { return; }
      var b := m.timeline[ref.index];
      match f.event {
        case ToolCallArgs(_, delta) => b := b.(arguments := b.arguments + delta);
        case ToolCallEnd(_) => b := b.(complete := true);
        case ToolCallResult(_, content, metadata, display, _) =>
          b := b.(result := content);
          if Millis(f.at) >= b.startedAt { b := b.(endedAt := Millis(f.at)); }
          if |metadata| > 0 { b := b.(metadata := metadata); }
          if display.Some? { b := b.(display := display); }
        case ActivitySnapshot(_, _, display) =>
          if display.Some? { b := b.(display := display); }
        case ActivityDelta(_, patch, _) =>
          var progress := AddLines(b.progress, patch);
          b := b.(progress := progress);
      }
      assert b == Edited(m.timeline[ref.index], f);
      byId := byId[ref.message := m.(timeline := m.timeline[ref.index := b])];
    }

    static method AddLines(progress: seq<Value>, patch: seq<Patch>) returns (out: seq<Value>)
      ensures out == progress + Lines(patch)
    {
      out := progress;
      for i := 0 to |patch|
        invariant out == progress + Lines(patch[..i])
      {
        assert patch[..i + 1][..i] == patch[..i];
        if patch[i].path == "/output/-" {
          out := out + [patch[i].value];
        }
      }
      assert patch[..|patch|] == patch;
    }

    method ApplyEvent(f: Frame)
      requires Valid(View())
      modifies this
      ensures View() == Apply(old(View()), f) && Valid(View())
    {
      hide Valid, CallStarted, Streamed;
      ApplyValid(View(), f);
      match f.event {
        case TextChunk(id, _, delta) => AddStreamed(id, Content, delta, f.at);
        case ReasoningChunk(id, delta) => AddStreamed(TrimReasoning(id), Thinking, delta, f.at);
        case ToolCallStart(call, name, parent) => StartCall(call, name, parent, f.at);
        case Other(_, _, _) =>
        case _ => EditCall(f);
      }
    }

    method Collect() returns (out: seq<Message>)
      requires Valid(View())
      ensures out == Messages(View())
    {
      out := [];
      for i := 0 to |ordered|
        invariant out == Messages(View())[..i]
      {
        out := out + [byId[ordered[i]]];
      }
    }
  }
}
