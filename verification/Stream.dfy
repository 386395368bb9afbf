/**
 Stream of internal/engine/stream.go: events leave as frames of the run's log,
 deltas that follow each other closely held back to leave as one, and a log past
 its budget folded while the reply streams. The window timer is left free: a
 delta may be held or written at once, and a held one may leave at any step.
 */
module Streaming {
  import opened Options
  import opened Events
  import opened RunLog
  import opened Timeline
  import opened Checkpoint

  /** Text not framed yet: the delta it began with, all of it so far, and the latest time. */
  datatype Pending = Pending(first: Event, text: string, at: nat)

  datatype State = State(
    log: Log<Frame>,
    pending: Option<Pending>,
    lastDelta: Key,
    tools: map<string, Tool>,
    folding: bool,
    observed: Assembly)

  /** What the run is given: the size of an encoded frame. */
  datatype Env = Env(size: Frame -> nat)

  function Init(budget: nat): State {
    State(NewLog(budget), None, NoKey, map[], false, Timeline.EMPTY)
  }

  function KeyOfPending(p: Pending): Key {
    KeyOf(p.first)
  }

  function PendingFrame(p: Pending): Frame
    requires IsTextDelta(p.first)
  {
    Frame(WithText(p.first, p.text), p.at)
  }

  // ---- Tracking activities ----

  function TrackOp(a: Activity, op: Patch): Activity {
    match op.value
    case Number(n) => if op.path == "/progress" then a.(progress := n) else a
    case Text(t) => if op.path == "/output/-" then a.(output := a.output + [t]) else a
  }

  function TrackOps(a: Activity, patch: seq<Patch>): Activity {
    if patch == [] then a else TrackOp(TrackOps(a, patch[..|patch| - 1]), patch[|patch| - 1])
  }

  /** What is known of each tool's activity after one more event. */
  function Tracked(tools: map<string, Tool>, e: Event): map<string, Tool> {
    match e
    case ActivitySnapshot(id, activity, display) => tools[id := Tool(activity, display)]
    case ActivityDelta(id, patch, display) =>
      if id !in tools then tools
      else tools[id := Tool(TrackOps(tools[id].activity, patch), if display.Some? then display else tools[id].display)]
    case _ => tools
  }

  lemma {:induction false} TrackOpsIsPatch(a: Activity, patch: seq<Patch>)
    requires forall i :: 0 <= i < |patch| ==> IsProgressPatch(patch[i])
    ensures Patched(a, patch) == Some(TrackOps(a, patch))
  {
    if patch != [] {
      TrackOpsIsPatch(a, patch[..|patch| - 1]);
    }
  }

  /** What the stream tracks is what a client applying the JSON patches shows. */
  lemma TrackedIsShown(tools: map<string, Tool>, f: Frame)
    requires WellFormed(f.event)
    ensures Tracked(tools, f.event) == TakeReport(tools, f)
  {
    if f.event.ActivityDelta? && f.event.messageId in tools {
      TrackOpsIsPatch(tools[f.event.messageId].activity, f.event.patch);
    }
  }

  /** A snapshot frame of a tracked activity; an unknown key has none. */
  function ActivityFrame(tools: map<string, Tool>, key: Key, now: nat): Option<Frame> {
    if key.ActivityOf? && key.target in tools
    then Some(Frame(ActivitySnapshot(key.target, tools[key.target].activity, tools[key.target].display), now))
    else None
  }

  function FoldOps(env: Env, tools: map<string, Tool>, now: nat): Ops<Frame> {
    Ops(env.size, Merged, key => ActivityFrame(tools, key, now))
  }

  lemma FoldOpsFold(env: Env, tools: map<string, Tool>, now: nat)
    ensures FoldsFrames(FoldOps(env, tools, now), tools)
  {}

  // ---- Framing ----

  function EntryOf(f: Frame): Entry<Frame> {
    Entry(f, KindOf(f.event), KeyOf(f.event))
  }

  function Written(s: State, f: Frame, env: Env, now: nat): State {
    if !Encodes(f.event) then s
    else
      var tools := Tracked(s.tools, f.event);
      var ops := FoldOps(env, tools, now);
      var log := Grown(s.log, EntryOf(f), ops);
      State(if OverBudget(log) && s.folding then FoldedLog(log, ops) else log,
            s.pending,
            if IsTextDelta(f.event) then KeyOf(f.event) else NoKey,
            tools,
            s.folding,
            if s.folding then Timeline.Apply(s.observed, f) else s.observed)
  }

  predicate Sane(s: State) {
    s.pending.Some? ==> IsTextDelta(s.pending.value.first)
  }

  function PendingFramed(s: State, env: Env, now: nat): (s': State)
    requires Sane(s)
    ensures s'.pending.None?
  {
    if s.pending.None? then s
    else Written(s.(pending := None), PendingFrame(s.pending.value), env, now)
  }

  /** Whether a delta joins those held back. */
  predicate JoinsPending(s: State, e: Event) {
    && s.pending.Some?
    && IsTextDelta(e)
    && KeyOfPending(s.pending.value) == KeyOf(e)
    && |s.pending.value.text| + |e.delta| <= MERGED_FRAME_BYTES
  }

  function Framed(s: State, f: Frame, within: bool, env: Env, now: nat): (s': State)
    requires Sane(s)
    ensures Sane(s')
  {
    var e := f.event;
    if !IsTextDelta(e) then
      Written(PendingFramed(s, env, now), f, env, now)
    else if JoinsPending(s, e) then
      s.(pending := Some(s.pending.value.(text := s.pending.value.text + e.delta, at := f.at)))
    else
      var s1 := PendingFramed(s, env, now);
      if KeyOf(e) == s1.lastDelta && within then
        s1.(pending := Some(Pending(e, e.delta, f.at)))
      else
        Written(s1, f, env, now)
  }

  // ---- Runs ----

  datatype Action =
    | Emit(frame: Frame, within: bool)  // within: the window since the last delta's frame is open
    | Fire                              // the window of the held deltas ends
    | Begin(seed: Assembly)             // the reply starts: its frames are observed and folded
    | Finish                            // the reply is over
    | Close                             // the log is closed

  function Step(s: State, a: Action, env: Env, now: nat): (s': State)
    requires Sane(s)
    ensures Sane(s')
  {
    match a
    case Emit(f, within) => Framed(s, f, within, env, now)
    case Fire => PendingFramed(s, env, now)
    case Begin(seed) => s.(folding := true, observed := seed)
    case Finish => PendingFramed(s, env, now).(folding := false, tools := map[])
    case Close => s.(log := s.log.(closed := true))
  }

  // ---- The stream itself ----

  class Stream {
    const env: Env
    var log: Log<Frame>
    var pending: Option<Pending>
    var lastDelta: Key
    var tools: map<string, Tool>
    var folding: bool
    var observed: Assembly

    function View(): State
      reads this
    {
      State(log, pending, lastDelta, tools, folding, observed)
    }

    constructor (env: Env)
      ensures View() == Init(RUN_LOG_BUDGET) && this.env == env
    {
      this.env := env;
      log, pending, lastDelta, tools := NewLog(RUN_LOG_BUDGET), None, NoKey, map[];
      folding, observed := false, Timeline.EMPTY;
    }

    method Track(e: Event)
      modifies this`tools
      ensures tools == Tracked(old(tools), e)
    {
      match e {
        case ActivitySnapshot(id, activity, display) =>
          tools := tools[id := Tool(activity, display)];
        case ActivityDelta(id, patch, display) =>
          if id !in tools { return; }
          var a := tools[id].activity;
          for i := 0 to |patch|
            invariant a == TrackOps(tools[id].activity, patch[..i])
          {
            assert patch[..i + 1][..i] == patch[..i];
            match patch[i].value {
              case Number(n) => if patch[i].path == "/progress" { a := a.(progress := n); }
              case Text(t) => if patch[i].path == "/output/-" { a := a.(output := a.output + [t]); }
            }
          }
          assert patch[..|patch|] == patch;
          tools := tools[id := Tool(a, if display.Some? then display else tools[id].display)];
        case _ =>
      }
    }

    method Write(f: Frame, now: nat)
      modifies this
      ensures View() == Written(old(View()), f, env, now)
    {
      hide Timeline.Apply, FoldedLog, Tracked;
      if !Encodes(f.event) { return; }
      log := Grown(log, EntryOf(f), FoldOps(env, tools, now));
      var full := OverBudget(log);
      lastDelta := NoKey;
      if IsTextDelta(f.event) { lastDelta := KeyOf(f.event); }
      Track(f.event);
      if folding { observed := Timeline.Apply(observed, f); }
      if full && folding { log := FoldedLog(log, FoldOps(env, tools, now)); }
    }

    method FramePending(now: nat)
      requires Sane(View())
      modifies this
      ensures View() == PendingFramed(old(View()), env, now) && pending == None
    {
      if pending.None? { return; }
      var p := pending.value;
      pending := None;
      Write(Frame(WithText(p.first, p.text), p.at), now);
    }

    method FrameEvent(f: Frame, within: bool, now: nat)
      requires Sane(View())
      modifies this
      ensures View() == Framed(old(View()), f, within, env, now) && Sane(View())
    {
      var e := f.event;
      if !IsTextDelta(e) {
        FramePending(now);
        Write(f, now);
        return;
      }
      if pending.Some? && KeyOf(pending.value.first) == KeyOf(e) && |pending.value.text| + |e.delta| <= MERGED_FRAME_BYTES {
        pending := Some(pending.value.(text := pending.value.text + e.delta, at := f.at));
        return;
      }
      FramePending(now);
      if KeyOf(e) == lastDelta && within {
        pending := Some(Pending(e, e.delta, f.at));
        return;
      }
      Write(f, now);
    }
  }
}
