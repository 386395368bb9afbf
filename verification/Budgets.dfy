/**
 When a log is folded, and what holding and folding save: sums over frames say it, not the
 definitions that decide it.
 */
module Budgets {
  import opened Options
  import opened Events
  import opened RunLog
  import opened Checkpoint
  import opened Streaming
  import StreamRuns
  import Timeline

  // ---- The budget ----

  /** How large frames are together. */
  function Total<T>(size: T -> nat, es: seq<Entry<T>>): nat {
    if es == [] then 0 else Total(size, es[..|es| - 1]) + size(es[|es| - 1].data)
  }

  lemma TotalMore<T>(size: T -> nat, es: seq<Entry<T>>, e: Entry<T>)
    ensures Total(size, es + [e]) == Total(size, es) + size(e.data)
  {
    assert (es + [e])[..|es|] == es;
  }

  /** The log's count is what its frames since the last fold add up to. */
  ghost predicate Measured(log: Log<Frame>, env: Env) { log.bytes == Total(env.size, log.frames) }

  /**
   A frame that encodes folds the log exactly when the reply streams, the log is open and
   the frames since the last fold are, with it, over the budget. Otherwise it is the last
   frame of an open log, and a closed log takes nothing.
   */
  lemma FoldsOverBudget(s: State, f: Frame, env: Env, now: nat)
    requires Measured(s.log, env) && Encodes(f.event)
    ensures var s' := Written(s, f, env, now);
            var over := Total(env.size, s.log.frames) + env.size(f) > s.log.budget;
            && Measured(s'.log, env) && s'.log.budget == s.log.budget
            && s'.log.folds == s.log.folds + (if s.folding && !s.log.closed && over then 1 else 0)
            && (s.log.closed ==> s'.log == s.log)
            && (!s.log.closed && s.folding && over ==> s'.log.frames == [] && s'.log.base == s.log.base + |s.log.frames| + 1)
            && (!s.log.closed && !(s.folding && over) ==> s'.log.frames == s.log.frames + [EntryOf(f)] && s'.log.base == s.log.base)
            && (!s.log.closed && s.folding ==> Total(env.size, s'.log.frames) <= s.log.budget)
  {
    hide Folded, Tracked, Timeline.Apply, Merged;
    TotalMore(env.size, s.log.frames, EntryOf(f));
  }

  lemma PendingMeasured(s: State, env: Env, now: nat)
    requires Sane(s) && Measured(s.log, env)
    ensures Measured(PendingFramed(s, env, now).log, env) && PendingFramed(s, env, now).log.budget == s.log.budget
  {
    hide Written;
    if s.pending.Some? { FoldsOverBudget(s.(pending := None), PendingFrame(s.pending.value), env, now); }
  }

  lemma StepMeasured(s: State, a: Action, env: Env, now: nat)
    requires Sane(s) && Measured(s.log, env)
    ensures Measured(Step(s, a, env, now).log, env) && Step(s, a, env, now).log.budget == s.log.budget
  {
    hide Written, PendingFramed, JoinsPending;
    PendingMeasured(s, env, now);
    if a.Emit? {
      var s1 := PendingFramed(s, env, now);
      if Encodes(a.frame.event) {
        FoldsOverBudget(s1, a.frame, env, now);
      } else {
        NotWritten(s1, a.frame, env, now);
      }
    }
  }

  lemma NotWritten(s: State, f: Frame, env: Env, now: nat)
    requires !Encodes(f.event)
    ensures Written(s, f, env, now) == s
  {}

  /** Throughout a run the count is exact and the budget the run's own, so every write folds as FoldsOverBudget says. */
  lemma {:induction false} RunMeasured(budget: nat, actions: seq<StreamRuns.Timed>, env: Env)
    ensures var log := StreamRuns.After(budget, actions, env).s.log; Measured(log, env) && log.budget == budget
  {
    hide Step;
    if actions != [] {
      var n := |actions| - 1;
      RunMeasured(budget, actions[..n], env);
      StepMeasured(StreamRuns.After(budget, actions[..n], env).s, actions[n].action, env, actions[n].now);
    }
  }

  // ---- Holding ----

  /** Deltas held together are no longer than a merged frame may be, unless one is by itself. */
  ghost predicate HeldFits(s: State) {
    s.pending.Some? && IsTextDelta(s.pending.value.first) ==>
      |s.pending.value.text| <= MERGED_FRAME_BYTES || s.pending.value.text == s.pending.value.first.delta
  }

  lemma {:induction false} RunHeldFits(budget: nat, actions: seq<StreamRuns.Timed>, env: Env)
    ensures HeldFits(StreamRuns.After(budget, actions, env).s)
  {
    hide Step;
    if actions != [] {
      var n := |actions| - 1;
      RunHeldFits(budget, actions[..n], env);
      StepHeldFits(StreamRuns.After(budget, actions[..n], env).s, actions[n].action, env, actions[n].now);
    }
  }

  lemma StepHeldFits(s: State, a: Action, env: Env, now: nat)
    requires Sane(s) && HeldFits(s)
    ensures HeldFits(Step(s, a, env, now))
  {
    hide Written;
    PendingGone(s, env, now);
    if a.Emit? { WrittenKeepsHeld(PendingFramed(s, env, now), a.frame, env, now); }
  }

  lemma PendingGone(s: State, env: Env, now: nat)
    requires Sane(s)
    ensures PendingFramed(s, env, now).pending.None?
  {}

  lemma WrittenKeepsHeld(s: State, f: Frame, env: Env, now: nat)
    ensures Written(s, f, env, now).pending == s.pending
  {}

  /** A delta in the window after one to the same target frames nothing: it is held, or joins what is held and fits. */
  lemma WindowHolds(s: State, f: Frame, env: Env, now: nat)
    requires Sane(s) && IsTextDelta(f.event)
    requires if s.pending.Some? then KeyOf(s.pending.value.first) == KeyOf(f.event) && |s.pending.value.text| + |f.event.delta| <= MERGED_FRAME_BYTES
             else s.lastDelta == KeyOf(f.event)
    ensures var s' := Step(s, Emit(f, true), env, now);
            && s'.log == s.log && s'.pending.Some? && s'.pending.value.at == f.at
            && s'.pending.value.text == (if s.pending.Some? then s.pending.value.text else "") + f.event.delta
  {}

  /** Outside the window nothing is held but what already was, and any event that is no delta leaves nothing held. */
  lemma OutsideNothingWaits(s: State, f: Frame, within: bool, env: Env, now: nat)
    requires Sane(s) && (!IsTextDelta(f.event) || (s.pending.None? && !within))
    ensures Step(s, Emit(f, within), env, now).pending.None?
  {
    hide Written;
    PendingGone(s, env, now);
    WrittenKeepsHeld(PendingFramed(s, env, now), f, env, now);
  }

  // ---- Folding ----

  function Sum<T>(size: T -> nat, ds: seq<T>): nat {
    if ds == [] then 0 else Sum(size, ds[..|ds| - 1]) + size(ds[|ds| - 1])
  }

  lemma {:induction false} SumIsTotal<T>(size: T -> nat, es: seq<Entry<T>>)
    ensures Sum(size, Datas(es)) == Total(size, es)
  {
    if es != [] {
      SumIsTotal(size, es[..|es| - 1]);
      assert Datas(es)[..|es| - 1] == Datas(es[..|es| - 1]);
    }
  }

  /** Merging makes no delta longer than those it merges. */
  ghost predicate MergesShort<T(!new)>(ops: Ops<T>) {
    forall ds: seq<T> :: |ds| > 0 ==> ops.size(ops.merge(ds)) <= Sum(ops.size, ds)
  }

  /** A delta of a checkpoint is one of those folded, or is no longer than a merged frame may be. */
  ghost predicate Fits<T>(cs: seq<Entry<T>>, es: seq<Entry<T>>, ops: Ops<T>) {
    forall i :: 0 <= i < |cs| && cs[i].kind.Delta? ==> cs[i] in es || ops.size(cs[i].data) <= MERGED_FRAME_BYTES
  }

  /** The run gathered is of deltas folded, and no longer than a merged frame may be unless it is one. */
  ghost predicate Gathers<T>(st: Folding<T>, es: seq<Entry<T>>, ops: Ops<T>) {
    && st.size == Total(ops.size, st.run) && (|st.run| > 1 ==> st.size <= MERGED_FRAME_BYTES)
    && forall i :: 0 <= i < |st.run| ==> st.run[i] in es
  }

  lemma FlushedFits<T(!new)>(st: Folding<T>, es: seq<Entry<T>>, ops: Ops<T>)
    requires MergesShort(ops) && Fits(st.checkpoint, es, ops) && Gathers(st, es, ops)
    ensures Fits(Flushed(st, ops).checkpoint, es, ops) && Flushed(st, ops).size == 0
  {
    var n := |st.run|;
    if n > 2 {
      var ds := st.run[..n - 1];
      SumIsTotal(ops.size, ds);
      assert ops.size(ops.merge(Datas(ds))) <= Sum(ops.size, Datas(ds));
    }
  }

  lemma TakenFits<T(!new)>(st: Folding<T>, es: seq<Entry<T>>, e: Entry<T>, ops: Ops<T>)
    requires MergesShort(ops) && Fits(st.checkpoint, es, ops) && Gathers(st, es, ops)
    ensures var st' := Taken(st, e, ops); Fits(st'.checkpoint, es + [e], ops) && Gathers(st', es + [e], ops)
  {
    hide MergesShort, Flushed;
    FlushedFits(st, es, ops);
    TotalMore(ops.size, st.run, e);
    TotalMore(ops.size, [], e);
    assert [] + [e] == [e] && forall x :: x in es ==> x in es + [e];
    assert (es + [e])[|es|] == e;
  }

  /** However much is folded, and folded again, no delta of a checkpoint is merged past the length a merged frame may have. */
  lemma {:induction false} CheckpointFits<T(!new)>(es: seq<Entry<T>>, ops: Ops<T>)
    requires MergesShort(ops)
    ensures Fits(Folded(es, ops).checkpoint, es, ops)
  {
    hide MergesShort, Flushed;
    FoldingFits(es, ops);
    FlushedFits(FoldedTo(es, ops), es, ops);
  }

  lemma {:induction false} FoldingFits<T(!new)>(es: seq<Entry<T>>, ops: Ops<T>)
    requires MergesShort(ops)
    ensures Fits(FoldedTo(es, ops).checkpoint, es, ops) && Gathers(FoldedTo(es, ops), es, ops)
  {
    hide MergesShort, Taken, Fits, Gathers;
    if es == [] {
      NothingFits(ops);
    } else {
      var n := |es| - 1;
      FoldingFits(es[..n], ops);
      TakenFits(FoldedTo(es[..n], ops), es[..n], es[n], ops);
      assert es[..n] + [es[n]] == es;
    }
  }

  lemma NothingFits<T>(ops: Ops<T>)
    ensures Fits([], [], ops) && Gathers(Folding([], [], 0, {}, []), [], ops)
  {}

  /** Deltas to one target that fit in a merged frame leave at most two entries of a checkpoint. */
  lemma {:induction false} RunFolds<T>(es: seq<Entry<T>>, ops: Ops<T>)
    requires es != [] && Total(ops.size, es) <= MERGED_FRAME_BYTES
    requires forall i :: 0 <= i < |es| ==> es[i].kind.Delta? && es[i].key == es[0].key
    ensures |Folded(es, ops).checkpoint| <= 2
  {
    RunGathers(es, ops);
  }

  lemma {:induction false} RunGathers<T>(es: seq<Entry<T>>, ops: Ops<T>)
    requires es != [] && Total(ops.size, es) <= MERGED_FRAME_BYTES
    requires forall i :: 0 <= i < |es| ==> es[i].kind.Delta? && es[i].key == es[0].key
    ensures var st := FoldedTo(es, ops); st.checkpoint == [] && st.run == es && st.size == Total(ops.size, es)
  {
    var n := |es| - 1;
    if n > 0 {
      RunGathers(es[..n], ops);
    } else {
      assert es[..0] == [];
    }
  }

  /** How many reports of a key entries hold. */
  function Reports<T>(es: seq<Entry<T>>, key: Key): nat {
    if es == [] then 0
    else Reports(es[..|es| - 1], key) + if es[|es| - 1].kind.Report? && es[|es| - 1].key == key then 1 else 0
  }

  lemma ReportsMore<T>(es: seq<Entry<T>>, e: Entry<T>, key: Key)
    ensures Reports(es + [e], key) == Reports(es, key) + if e.kind.Report? && e.key == key then 1 else 0
  {
    assert (es + [e])[..|es|] == es;
  }

  lemma {:induction false} ReportsBoth<T>(a: seq<Entry<T>>, b: seq<Entry<T>>, key: Key)
    requires forall i :: 0 <= i < |b| ==> b[i].kind.Delta?
    ensures Reports(a + b, key) == Reports(a, key)
  {
    if b == [] {
      assert a + b == a;
    } else {
      var n := |b| - 1;
      ReportsBoth(a, b[..n], key);
      ReportsMore(a + b[..n], b[n], key);
      assert a + b == a + b[..n] + [b[n]];
    }
  }

  /** A fold under way holds a report of a key only once it has placed it, and then one; its run is deltas. */
  ghost predicate Placed1<T>(st: Folding<T>, key: Key) {
    && Reports(st.checkpoint, key) <= (if key in st.placed then 1 else 0)
    && forall i :: 0 <= i < |st.run| ==> st.run[i].kind.Delta?
  }

  lemma FlushedReports<T>(st: Folding<T>, ops: Ops<T>, key: Key)
    requires Placed1(st, key)
    ensures Placed1(Flushed(st, ops), key)
  {
    hide Reports;
    var n := |st.run|;
    if n > 2 {
      var merged := Entry(ops.merge(Datas(st.run[..n - 1])), Delta, st.run[0].key);
      ReportsMore(st.checkpoint, merged, key);
      ReportsMore(st.checkpoint + [merged], st.run[n - 1], key);
    } else {
      ReportsBoth(st.checkpoint, st.run, key);
    }
  }

  lemma TakenReports<T>(st: Folding<T>, e: Entry<T>, ops: Ops<T>, key: Key)
    requires Placed1(st, key)
    ensures Placed1(Taken(st, e, ops), key)
  {
    hide Reports, Flushed;
    FlushedReports(st, ops, key);
    var flushed := Flushed(st, ops);
    if !Joins(st, e, ops) {
      ReportsMore(flushed.checkpoint, e, key);
      var now := ops.activity(e.key);
      if now.Some? { ReportsMore(flushed.checkpoint, Entry(now.value, Report, e.key), key); }
    }
  }

  /** A checkpoint holds at most one report of each tool call, however many were folded. */
  lemma {:induction false} OneReportEach<T>(es: seq<Entry<T>>, ops: Ops<T>, key: Key)
    ensures Reports(Folded(es, ops).checkpoint, key) <= 1
  {
    hide Flushed, Reports;
    FoldingReports(es, ops, key);
    FlushedReports(FoldedTo(es, ops), ops, key);
  }

  lemma {:induction false} FoldingReports<T>(es: seq<Entry<T>>, ops: Ops<T>, key: Key)
    ensures Placed1(FoldedTo(es, ops), key)
  {
    hide Taken;
    if es != [] {
      var n := |es| - 1;
      FoldingReports(es[..n], ops, key);
      TakenReports(FoldedTo(es[..n], ops), es[n], ops, key);
    }
  }
}
