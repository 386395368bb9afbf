/**
 What a tool call's block says, told from the events alone: from the frames since the
 call started, with no reference to how the assembler builds the block.
 */
module CallTranscript {
  import opened Options
  import opened Events
  import opened Timeline
  import opened Transcript
  import StreamRuns
  import Streaming

  // ---- Told from the events ----

  predicate Starts(f: Frame, call: string) { f.event.ToolCallStart? && f.event.toolCallId == call }

  predicate Ends(f: Frame, call: string) { f.event.ToolCallEnd? && f.event.toolCallId == call }

  predicate Results(f: Frame, call: string) { f.event.ToolCallResult? && f.event.toolCallId == call }

  /** A result that came no earlier than its call started, as the clock has it. */
  predicate ResultsAfter(f: Frame, call: string, start: nat) { Results(f, call) && Millis(f.at) >= start }

  predicate GivesMetadata(f: Frame, call: string) { Results(f, call) && f.event.metadata != "" }

  predicate GivesDisplay(f: Frame, call: string) {
    || (Results(f, call) && f.event.display.Some?)
    || (f.event.ActivitySnapshot? && TrimActivity(f.event.messageId) == call && f.event.display.Some?)
  }

  /** The frames since a call last started, its start first; none if it has not. */
  function Since(fs: seq<Frame>, call: string): (since: seq<Frame>)
    ensures since != [] ==> Starts(since[0], call) && forall i :: 0 < i < |since| ==> !Starts(since[i], call)
    ensures |since| <= |fs| && since == fs[|fs| - |since|..]
  {
    if fs == [] then []
    else
      var n := |fs| - 1;
      var before := Since(fs[..n], call);
      if Starts(fs[n], call) then [fs[n]]
      else if before == [] then []
      else before + [fs[n]]
  }

  function ArgumentText(fs: seq<Frame>, call: string): string {
    if fs == [] then ""
    else
      var f := fs[|fs| - 1];
      ArgumentText(fs[..|fs| - 1], call) + if f.event.ToolCallArgs? && f.event.toolCallId == call then f.event.delta else ""
  }

  /** The output lines added for a call, in order. */
  function OutputLines(fs: seq<Frame>, call: string): seq<Value> {
    if fs == [] then []
    else
      var f := fs[|fs| - 1];
      OutputLines(fs[..|fs| - 1], call)
      + if f.event.ActivityDelta? && TrimActivity(f.event.messageId) == call then PatchLines(f.event.patch) else []
  }

  /** The values a patch adds to the output, told from its front. */
  function PatchLines(patch: seq<Patch>): seq<Value> {
    if patch == [] then [] else (if patch[0].path == "/output/-" then [patch[0].value] else []) + PatchLines(patch[1..])
  }

  /** i is the last frame of which p holds. */
  ghost predicate IsLast(fs: seq<Frame>, p: Frame -> bool, i: int) {
    0 <= i < |fs| && p(fs[i]) && forall j :: i < j < |fs| ==> !p(fs[j])
  }

  ghost predicate Never(fs: seq<Frame>, p: Frame -> bool) { forall i :: 0 <= i < |fs| ==> !p(fs[i]) }

  function ResultOf(call: string): Frame -> bool { f => Results(f, call) }
  function ResultAfterOf(call: string, start: nat): Frame -> bool { f => ResultsAfter(f, call, start) }
  function MetadataOf(call: string): Frame -> bool { f => GivesMetadata(f, call) }
  function DisplayOf(call: string): Frame -> bool { f => GivesDisplay(f, call) }

  // ---- What a block tells ----

  /** The block is its call's, named and dated by its start. */
  ghost predicate TellsStart(b: Block, fs: seq<Frame>, call: string) {
    && fs != [] && Starts(fs[0], call)
    && b.id == CallBlock(call) && b.kind.ToolCall? && b.content == "" && b.duration == 0.0
    && b.name == fs[0].event.toolCallName && b.startedAt == Millis(fs[0].at)
  }

  ghost predicate TellsInput(b: Block, fs: seq<Frame>, call: string) {
    && b.arguments == ArgumentText(fs, call) && b.progress == OutputLines(fs, call)
    && (b.complete <==> exists i :: 0 <= i < |fs| && Ends(fs[i], call))
  }

  /** The result is the last one's, and the end the time of the last that came after the start. */
  ghost predicate TellsResult(b: Block, fs: seq<Frame>, call: string) {
    && (Never(fs, ResultOf(call)) ==> b.result == "")
    && (forall i :: IsLast(fs, ResultOf(call), i) ==> b.result == fs[i].event.content)
    && (Never(fs, ResultAfterOf(call, b.startedAt)) ==> b.endedAt == 0)
    && (forall i :: IsLast(fs, ResultAfterOf(call, b.startedAt), i) ==> b.endedAt == Millis(fs[i].at))
  }

  /** Metadata and display are the last that were given. */
  ghost predicate TellsExtras(b: Block, fs: seq<Frame>, call: string) {
    && (Never(fs, MetadataOf(call)) ==> b.metadata == "")
    && (forall i :: IsLast(fs, MetadataOf(call), i) ==> b.metadata == fs[i].event.metadata)
    && (Never(fs, DisplayOf(call)) ==> b.display == None)
    && (forall i :: IsLast(fs, DisplayOf(call), i) ==> b.display == fs[i].event.display)
  }

  ghost predicate TellsCall(b: Block, fs: seq<Frame>, call: string) {
    TellsStart(b, fs, call) && TellsInput(b, fs, call) && TellsResult(b, fs, call) && TellsExtras(b, fs, call)
  }

  // ---- One event ----

  lemma LastMore(fs: seq<Frame>, f: Frame, p: Frame -> bool)
    ensures p(f) ==> forall i :: IsLast(fs + [f], p, i) <==> i == |fs|
    ensures !p(f) ==> forall i :: IsLast(fs + [f], p, i) <==> IsLast(fs, p, i)
    ensures forall i :: IsLast(fs, p, i) ==> 0 <= i < |fs| && (fs + [f])[i] == fs[i]
    ensures Never(fs + [f], p) <==> Never(fs, p) && !p(f)
  {
    var more := fs + [f];
    assert more[|fs|] == f && forall j :: 0 <= j < |fs| ==> more[j] == fs[j];
    forall i | IsLast(more, p, i) ensures if p(f) then i == |fs| else IsLast(fs, p, i) {
      if i < |fs| { assert !p(more[|fs|]); }
    }
    if Never(more, p) {
      assert !p(more[|fs|]);
      forall i | 0 <= i < |fs| ensures !p(fs[i]) { assert !p(more[i]); }
    }
  }

  lemma {:induction false} LinesAreTold(patch: seq<Patch>)
    ensures Lines(patch) == PatchLines(patch)
  {
    if patch != [] {
      var n := |patch| - 1;
      LinesAreTold(patch[..n]);
      PatchLinesMore(patch[..n], patch[n]);
      assert patch == patch[..n] + [patch[n]];
    }
  }

  lemma {:induction false} PatchLinesMore(patch: seq<Patch>, p: Patch)
    ensures PatchLines(patch + [p]) == PatchLines(patch) + if p.path == "/output/-" then [p.value] else []
  {
    if patch == [] {
      assert [p][1..] == [];
    } else {
      PatchLinesMore(patch[1..], p);
      assert (patch + [p])[1..] == patch[1..] + [p];
    }
  }

  lemma InputTells(b: Block, fs: seq<Frame>, f: Frame, call: string)
    requires TellsInput(b, fs, call) && !Starts(f, call)
    ensures TellsInput(CallAfter(Some(b), f, call).value, fs + [f], call)
  {
    hide Lines, PatchLines, TrimActivity;
    var more := fs + [f];
    assert more[..|fs|] == fs && more[|fs|] == f;
    if f.event.ActivityDelta? { LinesAreTold(f.event.patch); }
    if Ends(f, call) { assert Ends(more[|fs|], call); }
    if b.complete {
      var i :| 0 <= i < |fs| && Ends(fs[i], call);
      assert Ends(more[i], call);
    }
  }

  lemma ResultTells(b: Block, fs: seq<Frame>, f: Frame, call: string)
    requires TellsResult(b, fs, call) && !Starts(f, call)
    ensures TellsResult(CallAfter(Some(b), f, call).value, fs + [f], call)
  {
    hide Lines, TrimActivity, IsLast, Never;
    LastMore(fs, f, ResultOf(call));
    LastMore(fs, f, ResultAfterOf(call, b.startedAt));
  }

  lemma ExtrasTell(b: Block, fs: seq<Frame>, f: Frame, call: string)
    requires TellsExtras(b, fs, call) && !Starts(f, call)
    ensures TellsExtras(CallAfter(Some(b), f, call).value, fs + [f], call)
  {
    hide Lines, TrimActivity, IsLast, Never;
    LastMore(fs, f, MetadataOf(call));
    LastMore(fs, f, DisplayOf(call));
  }

  lemma StartTells(f: Frame, call: string)
    requires Starts(f, call)
    ensures TellsCall(CallAfter(None, f, call).value, [f], call)
  {
    assert [f][..0] == [] && [f][0] == f;
    assert ArgumentText([], call) == "" && OutputLines([], call) == [];
  }

  /** One event more keeps a block telling what its call's events say. */
  lemma CallTells(b: Block, fs: seq<Frame>, f: Frame, call: string)
    requires TellsCall(b, fs, call) && !Starts(f, call)
    ensures TellsCall(CallAfter(Some(b), f, call).value, fs + [f], call)
  {
    hide TellsInput, TellsResult, TellsExtras, Lines, TrimActivity;
    InputTells(b, fs, f, call);
    ResultTells(b, fs, f, call);
    ExtrasTell(b, fs, f, call);
  }

  // ---- Every event ----

  /**
   Whatever the events, a call has a block exactly if it has started, and the block says of
   the call what the events since its last start say.
   */
  lemma {:induction false} AssembledCallTells(a: Assembly, fs: seq<Frame>, call: string)
    requires CallsOk(a) && call !in a.calls
    ensures var b, since := CallIn(StreamRuns.Assembled(a, fs), call), Since(fs, call);
            (b.Some? <==> since != []) && (b.Some? ==> TellsCall(b.value, since, call))
  {
    hide CallsOk, CallIn, Apply, CallAfter, TellsCall, ContentIn, BodyIn;
    if fs == [] {
      NotStarted(a, call);
    } else {
      var n := |fs| - 1;
      AssembledCallTells(a, fs[..n], call);
      AssembledTells(a, fs[..n], "", call);
      ApplyTells(StreamRuns.Assembled(a, fs[..n]), fs[n], "", call);
      var b := CallIn(StreamRuns.Assembled(a, fs[..n]), call);
      AfterOne(b, fs[n], call);
      if Starts(fs[n], call) {
        StartTells(fs[n], call);
      } else if b.Some? {
        CallTells(b.value, Since(fs[..n], call), fs[n], call);
      }
    }
  }

  lemma NotStarted(a: Assembly, call: string)
    requires call !in a.calls
    ensures CallIn(a, call).None?
  {}

  lemma AfterOne(b: Option<Block>, f: Frame, call: string)
    ensures Starts(f, call) ==> CallAfter(b, f, call) == CallAfter(None, f, call) && CallAfter(b, f, call).Some?
    ensures !Starts(f, call) ==> (CallAfter(b, f, call).Some? <==> b.Some?)
  {}

  /** With a clock that does not run back, a call that got a result ended when the last one came. */
  lemma EndIsLastResult(b: Block, fs: seq<Frame>, call: string, i: nat)
    requires TellsCall(b, fs, call) && IsLast(fs, ResultOf(call), i)
    requires forall j, k :: 0 <= j <= k < |fs| ==> fs[j].at <= fs[k].at
    ensures b.result == fs[i].event.content && b.endedAt == Millis(fs[i].at)
  {
    assert Millis(fs[0].at) <= Millis(fs[i].at);
    assert IsLast(fs, ResultAfterOf(call, b.startedAt), i);
  }

  /** The same of what a run's assembler holds, for every schedule of holds and folds. */
  lemma RunCallTells(budget: nat, actions: seq<StreamRuns.Timed>, env: Streaming.Env, seed: Assembly, reply: Message, call: string)
    requires Timeline.Valid(seed) && (seed == EMPTY || seed == Seeded(reply)) && StreamRuns.AllAllowed(budget, actions, env, seed)
    ensures var r, since := StreamRuns.After(budget, actions, env), Since(StreamRuns.EmittedBy(actions), call);
            !StreamRuns.ClosedBy(actions) && r.s.folding && r.s.pending.None? ==>
              var b := CallIn(r.s.observed, call);
              (b.Some? <==> since != []) && (b.Some? ==> TellsCall(b.value, since, call))
  {
    hide StreamRuns.After, StreamRuns.AllAllowed, StreamRuns.Assembled, CallsOk, CallIn, TellsCall, Timeline.Valid;
    SeedsTell(reply);
    StreamRuns.CoalescingRefines(budget, actions, env, seed);
    AssembledCallTells(seed, StreamRuns.EmittedBy(actions), call);
  }
}
