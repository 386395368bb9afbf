/**
 The events of a run, as internal/domain/events.go declares them, and what the
 run log's checkpoint does with each (kindOf of internal/engine/stream.go).

 A frame is modelled by what it encodes: its event and the time it was emitted.
 */
module Events {
  import opened Options

  /** A number as the program holds it: 64 bits of IEEE 754. */
  type Float64 = n: int | 0 <= n < 0x1_0000_0000_0000_0000

  /** A JSON value an activity patch carries. */
  datatype Value = Number(number: Float64) | Text(text: string)

  /** One operation of a JSON patch (RFC 6902). */
  datatype Patch = Patch(op: string, path: string, value: Value)

  /** A tool's output while it runs. */
  datatype Activity = Activity(toolCallId: string, tool: string, progress: Float64, output: seq<string>)

  type Display = string

  datatype Event =
    | TextChunk(messageId: string, role: string, delta: string)
    | ReasoningChunk(messageId: string, delta: string)
    | ToolCallArgs(toolCallId: string, delta: string)
    | ToolCallStart(toolCallId: string, toolCallName: string, parentMessageId: string)
    | ToolCallEnd(toolCallId: string)
    | ToolCallResult(toolCallId: string, content: string, metadata: string, display: Option<Display>, validJSON: bool)
    | ActivitySnapshot(messageId: string, activity: Activity, display: Option<Display>)
    | ActivityDelta(messageId: string, patch: seq<Patch>, display: Option<Display>)
      // every other event: the run's start and end, snapshots, state, compaction
    | Other(name: string, members: string, validJSON: bool)

  /** Whether encoding succeeds: only raw JSON members can make it fail. */
  predicate Encodes(e: Event) {
    (e.ToolCallResult? || e.Other?) ==> e.validJSON
  }

  /** Events that extend a text earlier events of their type and target began. */
  predicate IsTextDelta(e: Event) {
    e.TextChunk? || e.ReasoningChunk? || e.ToolCallArgs?
  }

  /** What the log keys a frame by; a text delta's key names its type and target. */
  datatype Key =
    | NoKey
    | MessageText(target: string)
    | MessageReasoning(target: string)
    | CallArguments(target: string)
    | ActivityOf(target: string)

  datatype Kind = Kept | Delta | Report

  function KindOf(e: Event): Kind {
    if IsTextDelta(e) then Delta
    else if e.ActivitySnapshot? || e.ActivityDelta? then Report
    else Kept
  }

  function KeyOf(e: Event): Key {
    match e
    case TextChunk(id, _, _) => MessageText(id)
    case ReasoningChunk(id, _) => MessageReasoning(id)
    case ToolCallArgs(id, _) => CallArguments(id)
    case ActivitySnapshot(id, _, _) => ActivityOf(id)
    case ActivityDelta(id, _, _) => ActivityOf(id)
    case _ => NoKey
  }

  function WithText(e: Event, text: string): (r: Event)
    requires IsTextDelta(e)
    ensures IsTextDelta(r) && r.delta == text
    ensures KeyOf(r) == KeyOf(e) && KindOf(r) == KindOf(e) && Encodes(r)
  {
    e.(delta := text)
  }

  /** A frame of the log. The clock counts nanoseconds, as RFC 3339 times do. */
  datatype Frame = Frame(event: Event, at: nat)

  function Millis(at: nat): nat {
    at / 1_000_000
  }

  /** The two patches a tool's progress is reported by (Stream.progress). */
  predicate IsProgressPatch(p: Patch) {
    || (p.op == "replace" && p.path == "/progress" && p.value.Number?)
    || (p.op == "add" && p.path == "/output/-" && p.value.Text?)
  }

  /** An event as the engine builds it: its patches are progress patches. */
  predicate WellFormed(e: Event) {
    e.ActivityDelta? ==> forall i :: 0 <= i < |e.patch| ==> IsProgressPatch(e.patch[i])
  }
}
