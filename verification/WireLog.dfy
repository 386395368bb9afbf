/**
 The log of bytes and the log of events are one: a FrameLog grown, folded and read as the
 stream and its followers do it always decodes to the event log, and so does what it lends.
 */
module WireLog {
  import opened Options
  import opened Events
  import opened RunLog
  import opened Checkpoint
  import opened Streaming
  import opened FrameLogs
  import StreamRuns

  /** How frames are written, read and merged as bytes. */
  datatype Wire = Wire(encode: Frame -> Bytes, decode: Bytes -> Frame, merge: seq<Bytes> -> Bytes)

  /** An entry of bytes that is as long as what it decodes to is taken to be, and filed as it. */
  predicate IsWire(w: Wire, env: Env, e: Entry<Bytes>) {
    var f := w.decode(e.data);
    env.size(f) == |e.data| && e.kind == KindOf(f.event) && e.key == KeyOf(f.event)
  }

  function Filed(w: Wire, env: Env): Entry<Bytes> -> bool { e => IsWire(w, env, e) }

  /**
   What encodes decodes, and merged deltas decode to the deltas merged. A merged frame need
   not be the bytes its event would be encoded as: the two order their members differently.
   */
  ghost predicate Lawful(w: Wire, env: Env) {
    && (forall f: Frame :: Encodes(f.event) ==> w.decode(w.encode(f)) == f && |w.encode(f)| == env.size(f))
    && (forall es: seq<Entry<Bytes>> :: |es| > 0 && IsDeltas(Filed(w, env), es) ==> MergesWell(w, env, es))
  }

  ghost predicate MergesWell(w: Wire, env: Env, es: seq<Entry<Bytes>>) {
    var m := w.merge(Datas(es));
    w.decode(m) == Merged(Map(w.decode, Datas(es))) && |m| == env.size(w.decode(m))
  }

  /** A log of bytes that decodes to a log of events. */
  ghost predicate Tells(w: Wire, env: Env, bytes: Log<Bytes>, log: Log<Frame>) {
    && MapEntries(w.decode, bytes.checkpoint) == log.checkpoint && MapEntries(w.decode, bytes.frames) == log.frames
    && All(Filed(w, env), bytes.checkpoint) && All(Filed(w, env), bytes.frames)
    && bytes.base == log.base && bytes.bytes == log.bytes && bytes.budget == log.budget
    && bytes.closed == log.closed && bytes.folds == log.folds
  }

  function ActivityBytes(w: Wire, tools: map<string, Tool>, now: nat): Key -> Option<Bytes> {
    key => MapOption(w.encode, ActivityFrame(tools, key, now))
  }

  lemma EncodedIsWire(w: Wire, env: Env, f: Frame)
    requires Lawful(w, env) && Encodes(f.event)
    ensures w.decode(w.encode(f)) == f && |w.encode(f)| == env.size(f)
    ensures IsWire(w, env, Entry(w.encode(f), KindOf(f.event), KeyOf(f.event)))
  {}

  /** Merging bytes, and an activity's bytes, do on bytes what a fold does on events. */
  lemma OpsCarry(w: Wire, env: Env, tools: map<string, Tool>, now: nat)
    requires Lawful(w, env)
    ensures Carries(w.decode, Filed(w, env), ByteOps(w.merge, ActivityBytes(w, tools, now)), FoldOps(env, tools, now))
  {
    var ok := Filed(w, env);
    var bytes, ops := ByteOps(w.merge, ActivityBytes(w, tools, now)), FoldOps(env, tools, now);
    forall es: seq<Entry<Bytes>> | |es| > 0 && IsDeltas(ok, es) ensures CarriesRun(w.decode, ok, bytes, ops, es) {
      assert MergesWell(w, env, es);
      MergedIsDelta(w, env, es);
    }
    forall k ensures CarriesActivity(w.decode, ok, bytes, ops, k) {
      var now := ActivityFrame(tools, k, now);
      if now.Some? { EncodedIsWire(w, env, now.value); }
    }
  }

  /** Deltas merge to a delta to their target. */
  lemma MergedIsDelta(w: Wire, env: Env, es: seq<Entry<Bytes>>)
    requires |es| > 0 && IsDeltas(Filed(w, env), es)
    ensures var m := Merged(Map(w.decode, Datas(es))); KindOf(m.event) == Delta && KeyOf(m.event) == es[0].key
  {
    var first := w.decode(es[0].data);
    assert IsWire(w, env, es[0]);
    assert Map(w.decode, Datas(es))[0] == first;
  }

  lemma AppendedTells(w: Wire, env: Env, bytes: Log<Bytes>, log: Log<Frame>, f: Frame)
    requires Lawful(w, env) && Tells(w, env, bytes, log) && Encodes(f.event)
    ensures Tells(w, env, Appended(bytes, Entry(w.encode(f), KindOf(f.event), KeyOf(f.event)), |w.encode(f)|), Appended(log, EntryOf(f), env.size(f)))
  {
    EncodedIsWire(w, env, f);
    var e := Entry(w.encode(f), KindOf(f.event), KeyOf(f.event));
    MapsConcat(w.decode, bytes.frames, [e], [], []);
    assert MapEntries(w.decode, [e]) == [EntryOf(f)];
  }

  lemma FoldedTells(w: Wire, env: Env, bytes: Log<Bytes>, log: Log<Frame>, tools: map<string, Tool>, now: nat)
    requires Lawful(w, env) && Tells(w, env, bytes, log)
    ensures Tells(w, env, FoldedLog(bytes, ByteOps(w.merge, ActivityBytes(w, tools, now))), FoldedLog(log, FoldOps(env, tools, now)))
  {
    hide Folded, Carries, ByteOps, FoldOps, Lawful;
    OpsCarry(w, env, tools, now);
    MapsConcat(w.decode, bytes.checkpoint, bytes.frames, [], []);
    FoldCommutesWithDecoding(w.decode, Filed(w, env), bytes.checkpoint + bytes.frames,
                             ByteOps(w.merge, ActivityBytes(w, tools, now)), FoldOps(env, tools, now));
    assert MapEntries(w.decode, []) == [];
  }

  /** A reading of the bytes decodes to the reading of the events. */
  lemma ReadingDecodes(w: Wire, env: Env, bytes: Log<Bytes>, log: Log<Frame>, from: nat)
    requires Tells(w, env, bytes, log)
    ensures var r, b := RunLog.Read(log, from), RunLog.Read(bytes, from);
            Map(w.decode, b.checkpoint) == r.checkpoint && Map(w.decode, b.frames) == r.frames && b.first == r.first
  {
    var r, b := RunLog.Read(log, from), RunLog.Read(bytes, from);
    assert Map(w.decode, Datas(bytes.checkpoint)) == Datas(log.checkpoint);
    var k := Min(r.first - log.base, |log.frames|);
    assert Map(w.decode, Datas(bytes.frames[k..])) == Datas(log.frames[k..]);
  }

  // ---- The stream, writing bytes ----

  /** A frame of the run leaves as bytes: the log grows, and folds past its budget while the reply streams. */
  method WriteBytes(log: FrameLog, w: Wire, s: State, f: Frame, env: Env, now: nat)
    requires log.Valid() && Tells(w, env, log.View(), s.log) && Lawful(w, env)
    modifies log, log.accepted
    ensures log.Valid() && Tells(w, env, log.View(), Written(s, f, env, now).log)
    ensures log.loans == old(log.loans) && log.draining == old(log.draining) && log.held == old(log.held) && log.ended == old(log.ended)
    ensures fresh(log.accepted - old(log.accepted))
  {
    hide FrameLog.Valid, Tells, FoldedLog, Tracked, Timeline.Apply, FoldOps, ByteOps, Lawful;
    if !Encodes(f.event) { return; }
    var tools := Tracked(s.tools, f.event);
    EncodedIsWire(w, env, f);
    AppendedTells(w, env, log.View(), s.log, f);
    Sizes(env, f, tools, now);
    var frame := NewBuffer(w.encode(f));
    var full := log.Grow(frame, KindOf(f.event), KeyOf(f.event));
    var grown := Grown(s.log, EntryOf(f), FoldOps(env, tools, now));
    SameBudget(w, env, log.View(), grown);
    if full && s.folding {
      FoldedTells(w, env, log.View(), grown, tools, now);
      log.Fold(w.merge, ActivityBytes(w, tools, now));
    }
  }

  lemma Sizes(env: Env, f: Frame, tools: map<string, Tool>, now: nat)
    ensures FoldOps(env, tools, now).size(f) == env.size(f)
  {}

  lemma SameBudget(w: Wire, env: Env, bytes: Log<Bytes>, log: Log<Frame>)
    requires Tells(w, env, bytes, log)
    ensures OverBudget(bytes) == OverBudget(log)
  {}

  method WritePending(log: FrameLog, w: Wire, s: State, env: Env, now: nat) returns (s': State)
    requires log.Valid() && Tells(w, env, log.View(), s.log) && Lawful(w, env) && Sane(s)
    modifies log, log.accepted
    ensures s' == PendingFramed(s, env, now)
    ensures log.Valid() && Tells(w, env, log.View(), s'.log)
    ensures log.loans == old(log.loans) && log.draining == old(log.draining) && log.held == old(log.held) && log.ended == old(log.ended)
    ensures fresh(log.accepted - old(log.accepted))
  {
    hide FrameLog.Valid, Tells, Written, Lawful;
    s' := PendingFramed(s, env, now);
    if s.pending.Some? {
      WriteBytes(log, w, s.(pending := None), PendingFrame(s.pending.value), env, now);
    }
  }

  method EmitBytes(log: FrameLog, w: Wire, s: State, f: Frame, within: bool, env: Env, now: nat)
    requires log.Valid() && Tells(w, env, log.View(), s.log) && Lawful(w, env) && Sane(s)
    modifies log, log.accepted
    ensures log.Valid() && Tells(w, env, log.View(), Framed(s, f, within, env, now).log)
    ensures log.loans == old(log.loans) && log.draining == old(log.draining) && log.held == old(log.held) && log.ended == old(log.ended)
    ensures fresh(log.accepted - old(log.accepted))
  {
    hide FrameLog.Valid, Tells, Written, PendingFramed, Lawful;
    if IsTextDelta(f.event) && JoinsPending(s, f.event) { return; }
    var s1 := WritePending(log, w, s, env, now);
    if !IsTextDelta(f.event) || !(KeyOf(f.event) == s1.lastDelta && within) {
      WriteBytes(log, w, s1, f, env, now);
    }
  }

  /** The log decodes to the run's, or has ended and is drained and held by nobody, and is zeroed. */
  ghost predicate Kept(w: Wire, env: Env, log: FrameLog, s: State)
    reads log, log.accepted
  {
    && log.closed == s.log.closed
    && if log.ended && log.draining == 0 && !log.held then log.AllZeroed() else Tells(w, env, log.View(), s.log)
  }

  lemma ClosedStays(s: State, a: Action, env: Env, now: nat)
    requires Sane(s) && s.log.closed
    ensures Step(s, a, env, now).log == s.log
  {
    hide Folded, Merged, Tracked, Timeline.Apply, FoldOps, WithText, JoinsPending;
  }

  /** One action of the run, its frames written as bytes. A closed log takes nothing. */
  method Act(log: FrameLog, w: Wire, s: State, a: Action, env: Env, now: nat) returns (s': State)
    requires log.Valid() && Kept(w, env, log, s) && Lawful(w, env) && Sane(s)
    modifies log, log.accepted
    ensures s' == Step(s, a, env, now)
    ensures log.Valid() && Kept(w, env, log, s') && log.loans == old(log.loans)
    ensures log.draining == old(log.draining) && log.held == old(log.held) && fresh(log.accepted - old(log.accepted))
  {
    hide Tells, Lawful, Step, FrameLog.AllZeroed, FrameLog.Emptied, FrameLog.Owns, FrameLog.Shown, FrameLog.Lends, FrameLog.Wiped, FrameLog.Awaited;
    s' := Step(s, a, env, now);
    if a.Close? {
      CloseTells(w, env, log.View(), s, env, now);
      log.Close();
    } else if log.closed {
      ClosedStays(s, a, env, now);
    } else {
      WriteAction(log, w, s, a, env, now);
      StreamRuns.StepCloses(s, a, env, now);
      SameClosed(w, env, log.View(), s'.log);
    }
  }

  lemma SameClosed(w: Wire, env: Env, bytes: Log<Bytes>, log: Log<Frame>)
    requires Tells(w, env, bytes, log)
    ensures bytes.closed == log.closed
  {}

  lemma CloseTells(w: Wire, env: Env, bytes: Log<Bytes>, s: State, env': Env, now: nat)
    requires Sane(s)
    ensures Step(s, Close, env', now).log == s.log.(closed := true)
    ensures Tells(w, env, bytes, s.log) ==> Tells(w, env, bytes.(closed := true), s.log.(closed := true))
  {}

  method WriteAction(log: FrameLog, w: Wire, s: State, a: Action, env: Env, now: nat)
    requires log.Valid() && Tells(w, env, log.View(), s.log) && Lawful(w, env) && Sane(s) && !a.Close?
    modifies log, log.accepted
    ensures log.Valid() && Tells(w, env, log.View(), Step(s, a, env, now).log)
    ensures log.loans == old(log.loans) && log.draining == old(log.draining) && log.held == old(log.held) && log.ended == old(log.ended)
    ensures fresh(log.accepted - old(log.accepted))
  {
    hide FrameLog.Valid, Tells, Written, PendingFramed, Framed, Lawful;
    match a
    case Emit(f, within) => EmitBytes(log, w, s, f, within, env, now);
    case Fire => var _ := WritePending(log, w, s, env, now);
    case Finish => var _ := WritePending(log, w, s, env, now);
    case Begin(_) =>
  }

  // ---- The stream and its followers ----

  /** What may come next: the run acts, a stream comes or goes, reads, or has sent what it read, or the log is held for a while. */
  datatype Happening = Acts(action: Action, now: nat) | Attaches | Leaves | Reads(from: nat) | Returns(reading: nat) | Holds | Releases

  function ActionsOf(hs: seq<Happening>): seq<StreamRuns.Timed> {
    if hs == [] then []
    else
      var h := hs[|hs| - 1];
      ActionsOf(hs[..|hs| - 1]) + if h.Acts? then [StreamRuns.Timed(h.action, h.now)] else []
  }

  /** The readings streams have not sent: the folds each was made after, and its loan. */
  ghost predicate Open(loans: map<nat, Loan>, open: seq<nat>, ids: seq<nat>) {
    && |open| == |ids|
    && (forall i, j :: 0 <= i < j < |ids| ==> ids[i] != ids[j])
    && (forall i :: 0 <= i < |ids| ==> ids[i] in loans && loans[ids[i]].folds == open[i])
    && (forall id :: id in loans ==> id in ids)
  }

  lemma {:induction false} OpenCount(loans: map<nat, Loan>, open: seq<nat>, ids: seq<nat>)
    requires Open(loans, open, ids)
    ensures |loans| == |open|
  {
    if ids == [] {
      assert loans == map[];
    } else {
      var n := |ids| - 1;
      OpenLess(loans, open, ids, n);
      OpenCount(loans - {ids[n]}, open[..n] + open[n + 1..], ids[..n] + ids[n + 1..]);
      assert loans.Keys == (loans - {ids[n]}).Keys + {ids[n]};
    }
  }

  lemma OpenLess(loans: map<nat, Loan>, open: seq<nat>, ids: seq<nat>, i: nat)
    requires Open(loans, open, ids) && i < |ids|
    ensures Open(loans - {ids[i]}, open[..i] + open[i + 1..], ids[..i] + ids[i + 1..])
  {
    var rest := ids[..i] + ids[i + 1..];
    assert forall k :: 0 <= k < |rest| ==> rest[k] == ids[if k < i then k else k + 1];
    forall id | id in loans - {ids[i]} ensures id in rest {
      var k :| 0 <= k < |ids| && ids[k] == id;
      assert rest[if k < i then k else k - 1] == id;
    }
  }

  lemma OpenMore(loans: map<nat, Loan>, open: seq<nat>, ids: seq<nat>, id: nat, loan: Loan)
    requires Open(loans, open, ids) && id !in loans
    ensures Open(loans[id := loan], open + [loan.folds], ids + [id])
  {
    forall k | k in loans[id := loan] ensures k in ids + [id] {
      if k != id { assert k in ids; }
    }
  }

  /** A step of a stream or a holder, where it may be taken; a stream attaches only while the log has not ended. */
  method Serve(log: FrameLog, w: Wire, env: Env, ghost s: State, open: seq<nat>, ghost ids: seq<nat>, h: Happening)
    returns (open': seq<nat>, ghost ids': seq<nat>)
    requires log.Valid() && Kept(w, env, log, s) && Open(log.loans, open, ids) && !h.Acts?
    modifies log, log.accepted
    ensures log.Valid() && Kept(w, env, log, s) && Open(log.loans, open', ids') && log.accepted == old(log.accepted)
  {
    hide Tells, Open, FrameLog.Valid, Kept;
    open', ids' := open, ids;
    if h.Reads? {
      open', ids' := ReadKept(log, w, env, s, open, ids, h.from);
    } else if h.Returns? {
      if h.reading < |open| {
        OpenHas(log.loans, open, ids, h.reading);
        OpenLess(log.loans, open, ids, h.reading);
        ReturnKept(log, w, env, s, open, ids, h.reading);
        open', ids' := open[..h.reading] + open[h.reading + 1..], ids[..h.reading] + ids[h.reading + 1..];
      }
    } else {
      OpenCount(log.loans, open, ids);
      ComeAndGo(log, w, env, s, |open|, h);
    }
  }

  /** Streams come and go, and the log is held and released. */
  method ComeAndGo(log: FrameLog, w: Wire, env: Env, ghost s: State, readings: nat, h: Happening)
    requires log.Valid() && Kept(w, env, log, s) && readings == |log.loans|
    modifies log, log.accepted
    ensures log.Valid() && Kept(w, env, log, s) && log.loans == old(log.loans) && log.accepted == old(log.accepted)
  {
    hide Tells, FrameLog.Valid, FrameLog.AllZeroed;
    if h.Attaches? && !log.ended {
      log.Attach();
    } else if h.Holds? && !log.ended {
      log.Hold();
    } else if h.Releases? {
      log.Release();
    } else if h.Leaves? && readings < log.draining {
      log.Detach();
    }
  }

  method ReadKept(log: FrameLog, w: Wire, env: Env, ghost s: State, open: seq<nat>, ghost ids: seq<nat>, from: nat)
    returns (open': seq<nat>, ghost ids': seq<nat>)
    requires log.Valid() && Kept(w, env, log, s) && Open(log.loans, open, ids)
    modifies log`lent, log`loans
    ensures log.Valid() && Kept(w, env, log, s) && Open(log.loans, open', ids')
  {
    hide Tells, Open, FrameLog.Valid, FrameLog.AllZeroed;
    open', ids' := open, ids;
    OpenCount(log.loans, open, ids);
    if |open| < log.draining {
      ghost var loans := log.loans;
      var behind, ahead, first, over, folded;
      ghost var id;
      behind, ahead, first, over, folded, id := Lend(log, w, env, s, from);
      OpenMore(loans, open, ids, id, log.loans[id]);
      open', ids' := open + [folded], ids + [id];
    }
  }

  lemma OpenHas(loans: map<nat, Loan>, open: seq<nat>, ids: seq<nat>, i: nat)
    requires Open(loans, open, ids) && i < |open|
    ensures i < |ids| && ids[i] in loans && loans[ids[i]].folds == open[i]
  {}

  /** A reading is returned: somebody still drains the log, so it is as it was. */
  method ReturnKept(log: FrameLog, w: Wire, env: Env, ghost s: State, open: seq<nat>, ghost ids: seq<nat>, i: nat)
    requires log.Valid() && Kept(w, env, log, s) && Open(log.loans, open, ids) && i < |open| && i < |ids|
    modifies log, log.accepted
    ensures log.Valid() && Kept(w, env, log, s) && log.loans == old(log.loans) - {ids[i]} && log.accepted == old(log.accepted)
  {
    hide Tells, Open, FrameLog.AllZeroed;
    OpenHas(log.loans, open, ids, i);
    OpenCount(log.loans, open, ids);
    log.Done(open[i], ids[i]);
  }

  /**
   Whatever the run does and whatever its followers read between, with loans open across
   folds, the log decodes to the event log of the run's actions alone until it is zeroed.
   */
  method Replay(log: FrameLog, w: Wire, budget: nat, hs: seq<Happening>, env: Env) returns (s: State)
    requires log.Valid() && Tells(w, env, log.View(), NewLog(budget)) && Lawful(w, env) && log.loans == map[]
    requires !log.closed
    modifies log, log.accepted
    ensures s == StreamRuns.After(budget, ActionsOf(hs), env).s
    ensures log.Valid() && Kept(w, env, log, s)
  {
    hide FrameLog.Valid, Kept, Tells, Step, Lawful, Open;
    s := Init(budget);
    var open: seq<nat>;
    ghost var ids: seq<nat>;
    open, ids := [], [];
    assert Kept(w, env, log, s) by { FreshKept(log, w, env, s); }
    assert Open(log.loans, open, ids) by { NoneOpen(); }
    for i := 0 to |hs|
      invariant s == StreamRuns.After(budget, ActionsOf(hs[..i]), env).s
      invariant log.Valid() && Kept(w, env, log, s) && Open(log.loans, open, ids)
      invariant fresh(log.accepted - old(log.accepted))
    {
      assert hs[..i + 1][..i] == hs[..i];
      if hs[i].Acts? {
        s := Act(log, w, s, hs[i].action, env, hs[i].now);
        ActedMore(budget, hs, i, env);
      } else {
        open, ids := Serve(log, w, env, s, open, ids, hs[i]);
        assert ActionsOf(hs[..i + 1]) == ActionsOf(hs[..i]);
      }
    }
    assert hs[..|hs|] == hs;
  }

  lemma ActedMore(budget: nat, hs: seq<Happening>, i: nat, env: Env)
    requires i < |hs| && hs[i].Acts?
    ensures StreamRuns.After(budget, ActionsOf(hs[..i + 1]), env)
         == StreamRuns.Next(StreamRuns.After(budget, ActionsOf(hs[..i]), env), hs[i].action, env, hs[i].now)
  {
    hide StreamRuns.Next;
    assert hs[..i + 1][..i] == hs[..i];
    var a := StreamRuns.Timed(hs[i].action, hs[i].now);
    assert (ActionsOf(hs[..i]) + [a])[..|ActionsOf(hs[..i])|] == ActionsOf(hs[..i]);
  }

  lemma NoneOpen()
    ensures Open(map[], [], [])
  {}

  lemma FreshKept(log: FrameLog, w: Wire, env: Env, s: State)
    requires log.Valid() && !log.closed && Tells(w, env, log.View(), s.log)
    ensures Kept(w, env, log, s)
  {
    hide FrameLog.Emptied, FrameLog.Owns, FrameLog.Shown, FrameLog.Lends, FrameLog.Wiped, FrameLog.Awaited;
  }

  /** What a stream is lent decodes to the run's own reading from its cursor, whatever was folded. */
  method Lend(log: FrameLog, w: Wire, env: Env, ghost s: State, from: nat)
    returns (behind: seq<Buffer>, ahead: seq<Buffer>, first: nat, over: bool, folded: nat, ghost id: nat)
    requires log.Valid() && Kept(w, env, log, s) && |log.loans| < log.draining
    modifies log`lent, log`loans
    ensures log.Valid() && Kept(w, env, log, s) && over == s.log.closed
    ensures id !in old(log.loans) && log.loans == old(log.loans)[id := Loan(folded, behind + ahead, Contents(behind + ahead))]
    ensures var r := RunLog.Read(s.log, from);
            Map(w.decode, Contents(behind)) == r.checkpoint && Map(w.decode, Contents(ahead)) == r.frames && first == r.first
  {
    hide RunLog.Read, Tells, FrameLog.Valid, FrameLog.AllZeroed;
    ReadingDecodes(w, env, log.View(), s.log, from);
    behind, ahead, first, over, folded, id := log.Read(from);
  }
}
