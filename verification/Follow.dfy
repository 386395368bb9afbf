/**
 Followers of a run: Read of internal/engine/runlog.go, the cursor loop of Follow
 in internal/engine/stream.go and ResumeFrom of internal/engine/follow.go. A
 follower may lose its stream after any event it was sent and resume from the
 last cursor it saw, while the log grows, folds and closes.
 */
module Following {
  import opened Options
  import opened Events
  import opened RunLog
  import opened Timeline
  import opened Checkpoint
  import opened Streaming
  import opened StreamRuns

  /** The Last-Event-ID a client names: none, one that is no cursor, or a cursor. */
  datatype LastEvent = Absent | Malformed | Cursor(after: int)

  datatype Resumed = From(cursor: nat) | BadRequest

  function ResumeFrom<T>(log: Log<T>, last: LastEvent): Resumed {
    match last
    case Absent => From(0)
    case Malformed => BadRequest
    case Cursor(after) =>
      if after < 0 then BadRequest
      else if after < Sent(log) then From(after + 1)
      else BadRequest
  }

  /** An event on the wire: its frame, and the cursor it names if it names one. */
  datatype Sending = Sending(id: Option<int>, frame: Frame)

  /** The events of a reading: only the last of a checkpoint names a cursor, and every frame does. */
  function Wire(r: Reading<Frame>): (w: seq<Sending>)
    ensures |w| == |r.checkpoint| + |r.frames|
  {
    var c := |r.checkpoint|;
    seq(c, i requires 0 <= i < c => Sending(if i == c - 1 then Some(r.first - 1) else None, r.checkpoint[i]))
    + seq(|r.frames|, i requires 0 <= i < |r.frames| => Sending(Some(r.first + i), r.frames[i]))
  }

  function FramesOf(w: seq<Sending>): (fs: seq<Frame>)
    ensures |fs| == |w| && forall i :: 0 <= i < |w| ==> fs[i] == w[i].frame
  {
    seq(|w|, i requires 0 <= i < |w| => w[i].frame)
  }

  /** The last cursor a client saw. */
  function LastId(last: LastEvent, w: seq<Sending>): LastEvent {
    if w == [] then last
    else if w[|w| - 1].id.Some? then Cursor(w[|w| - 1].id.value)
    else LastId(last, w[..|w| - 1])
  }

  /** A client following a run: where its stream is, the last cursor it saw, and what it shows. */
  datatype Follower = Follower(from: nat, last: LastEvent, view: Client)

  /** The client after the first k events of a reading; one sent past its cursor starts from nothing. */
  function Delivered(f: Follower, r: Reading<Frame>, k: nat, seed: Assembly): Follower
    requires k <= |Wire(r)|
  {
    var w := Wire(r)[..k];
    var start := if r.first > f.from && k > 0 then Start(seed) else f.view;
    Follower(f.from, LastId(f.last, w), Take(start, FramesOf(w)))
  }

  /** A whole reading sent: the stream goes on after its last frame. */
  function Looked(f: Follower, log: Log<Frame>, seed: Assembly): Follower {
    var r := Read(log, f.from);
    var f' := Delivered(f, r, |Wire(r)|, seed);
    var view := if r.first > f.from then Take(Start(seed), FramesOf(Wire(r))) else f'.view;
    f'.(from := r.first + |r.frames|, view := view)
  }

  /** A stream lost after k events, and the run followed again from the last cursor seen. */
  function Cut(f: Follower, log: Log<Frame>, k: nat, seed: Assembly): Follower {
    var r := Read(log, f.from);
    var n := |Wire(r)|;
    var f' := Delivered(f, r, if k < n then k else n, seed);
    match ResumeFrom(log, f'.last)
    case From(cursor) => f'.(from := cursor)
    case BadRequest => f'
  }

  function NextAfter(last: LastEvent): int {
    if last.Cursor? then last.after + 1 else 0
  }

  /** A cursor a follower stands at is behind the log, or what it shows is every frame before it. */
  ghost predicate Shows(log: Log<Frame>, framed: seq<Frame>, seed: Assembly, cursor: int, view: Client) {
    0 <= cursor <= |framed| && (cursor < log.base || view == Take(Start(seed), framed[..cursor]))
  }

  ghost predicate FollowInv(f: Follower, log: Log<Frame>, framed: seq<Frame>, seed: Assembly) {
    && Shows(log, framed, seed, f.from, f.view)
    && Shows(log, framed, seed, NextAfter(f.last), f.view)
    && !f.last.Malformed?
    && NextAfter(f.last) <= f.from
    && (f.last.Cursor? ==> f.last.after >= 0)
  }

  /** A reading is every frame from its first on, after a checkpoint exactly when the cursor was behind it. */
  lemma ReadIsExact(log: Log<Frame>, framed: seq<Frame>, seed: Assembly, from: nat)
    requires Logged(log, framed, seed) && from <= |framed|
    ensures var r := Read(log, from);
            && r.frames == framed[r.first..]
            && r.first == (if from < log.base then log.base else from)
            && r.checkpoint == (if from < log.base then Datas(log.checkpoint) else [])
            && r.first + |r.frames| == |framed|
  {
    hide Take, Timely, AllLabelled;
    var r := Read(log, from);
    var k := r.first - log.base;
    assert Datas(log.frames[k..]) == Datas(log.frames)[k..];
    assert framed[log.base..][k..] == framed[r.first..];
  }

  lemma WireFrames(r: Reading<Frame>, k: nat)
    requires k <= |r.checkpoint| + |r.frames|
    ensures FramesOf(Wire(r)[..k]) ==
            if k <= |r.checkpoint| then r.checkpoint[..k] else r.checkpoint + r.frames[..k - |r.checkpoint|]
  {}

  /** The cursor seen last: unchanged within a checkpoint, and the one of the last event after it. */
  lemma {:induction false} WireLastId(r: Reading<Frame>, k: nat, last: LastEvent)
    requires k <= |r.checkpoint| + |r.frames|
    ensures LastId(last, Wire(r)[..k]) ==
            if k == 0 || k < |r.checkpoint| then last else Cursor(r.first + (k - |r.checkpoint|) - 1)
  {
    if k > 0 {
      WireLastId(r, k - 1, last);
      assert Wire(r)[..k][..k - 1] == Wire(r)[..k - 1];
    }
  }

  /**
   However many events of a reading arrive, what the client shows is every frame
   up to the last cursor it saw, or that cursor is still behind the checkpoint,
   which is then sent whole again.
   */
  lemma DeliveredShows(f: Follower, log: Log<Frame>, framed: seq<Frame>, seed: Assembly, k: nat)
    requires Logged(log, framed, seed) && FollowInv(f, log, framed, seed)
    requires k <= |Wire(Read(log, f.from))|
    ensures var f' := Delivered(f, Read(log, f.from), k, seed);
            && Shows(log, framed, seed, NextAfter(f'.last), f'.view)
            && !f'.last.Malformed?
            && (f'.last.Cursor? ==> f'.last.after >= 0)
            && (k == |Wire(Read(log, f.from))| && k > 0 ==> NextAfter(f'.last) == |framed|)
  {
    hide Take, Timely, AllLabelled, Logged, Read, Wire, LastId;
    var r := Read(log, f.from);
    ReadIsExact(log, framed, seed, f.from);
    WireFrames(r, k);
    WireLastId(r, k, f.last);
    var f', c := Delivered(f, r, k, seed), |r.checkpoint|;
    TakeNothing(f.view);
    if k == 0 {
      assert FramesOf(Wire(r)[..k]) == [];
    } else if k < c {
    } else {
      var n := k - c;
      var cursor := r.first + n;
      assert NextAfter(f'.last) == cursor;
      DeliveredFrames(log, framed, seed, f.from, f.view, n);
      assert FramesOf(Wire(r)[..k]) == r.checkpoint + r.frames[..n] by {
        if n == 0 { assert r.checkpoint[..k] == r.checkpoint + r.frames[..0]; }
      }
    }
  }

  lemma TakeNothing(c: Client)
    ensures Take(c, []) == c
  {}

  /** A checkpoint and the frames after it, or the frames after a cursor, show every frame before them too. */
  lemma DeliveredFrames(log: Log<Frame>, framed: seq<Frame>, seed: Assembly, from: nat, view: Client, n: nat)
    requires Logged(log, framed, seed) && Shows(log, framed, seed, from, view)
    requires n <= |Read(log, from).frames|
    ensures var r := Read(log, from);
            Take(if r.first > from then Start(seed) else view, r.checkpoint + r.frames[..n])
            == Take(Start(seed), framed[..r.first + n])
  {
    hide Take, Timely, AllLabelled, Read;
    var r := Read(log, from);
    ReadIsExact(log, framed, seed, from);
    assert framed[..r.first + n] == framed[..r.first] + r.frames[..n];
    TakeConcat(Start(seed), framed[..r.first], r.frames[..n]);
    if from < log.base {
      TakeConcat(Start(seed), r.checkpoint, r.frames[..n]);
    } else {
      assert r.checkpoint + r.frames[..n] == r.frames[..n];
    }
  }

  lemma LookedInv(f: Follower, log: Log<Frame>, framed: seq<Frame>, seed: Assembly)
    requires Logged(log, framed, seed) && FollowInv(f, log, framed, seed)
    ensures var f' := Looked(f, log, seed);
            FollowInv(f', log, framed, seed) && f'.from == |framed| && f'.view == Take(Start(seed), framed)
  {
    hide Take, Timely, AllLabelled, Logged, Read, Wire, LastId;
    var r := Read(log, f.from);
    var k := |Wire(r)|;
    ReadIsExact(log, framed, seed, f.from);
    DeliveredShows(f, log, framed, seed, k);
    DeliveredFrames(log, framed, seed, f.from, f.view, |r.frames|);
    WireFrames(r, k);
    WireLastId(r, k, f.last);
    assert r.frames[..|r.frames|] == r.frames;
    assert framed[..|framed|] == framed;
    assert Wire(r)[..k] == Wire(r);
    if |r.frames| == 0 {
      assert r.checkpoint[..k] == r.checkpoint + r.frames;
    }
    TakeNothing(f.view);
  }

  lemma CutInv(f: Follower, log: Log<Frame>, framed: seq<Frame>, seed: Assembly, k: nat)
    requires Logged(log, framed, seed) && FollowInv(f, log, framed, seed)
    ensures FollowInv(Cut(f, log, k, seed), log, framed, seed)
    ensures ResumeFrom(log, Delivered(f, Read(log, f.from), if k < |Wire(Read(log, f.from))| then k else |Wire(Read(log, f.from))|, seed).last).From?
  {
    hide Take, Timely, AllLabelled, Read, Wire, LastId, Delivered;
    DeliveredShows(f, log, framed, seed, if k < |Wire(Read(log, f.from))| then k else |Wire(Read(log, f.from))|);
  }

  // ---- Whole runs with a follower ----

  datatype Watch = Watch(run: Run, follower: Follower)

  /** The stream steps, a reading is sent whole, or the follower's stream is lost within one. */
  datatype Happening = Acts(action: Action, now: nat) | Look | Lose(events: nat)

  function Watched(w: Watch, h: Happening, env: Env, seed: Assembly): Watch
    requires Sane(w.run.s)
  {
    match h
    case Acts(a, now) => w.(run := Next(w.run, a, env, now))
    case Look => w.(follower := Looked(w.follower, w.run.s.log, seed))
    case Lose(k) => w.(follower := Cut(w.follower, w.run.s.log, k, seed))
  }

  function WatchedAll(budget: nat, hs: seq<Happening>, env: Env, seed: Assembly): (w: Watch)
    ensures Sane(w.run.s)
  {
    if hs == [] then Watch(Opening(budget), Follower(0, Absent, Start(seed)))
    else Watched(WatchedAll(budget, hs[..|hs| - 1], env, seed), hs[|hs| - 1], env, seed)
  }

  ghost predicate AllHappen(budget: nat, hs: seq<Happening>, env: Env, seed: Assembly) {
    forall i :: 0 <= i < |hs| && hs[i].Acts? ==>
                  Allowed(WatchedAll(budget, hs[..i], env, seed).run, hs[i].action, seed)
  }

  ghost predicate WatchInv(w: Watch, seed: Assembly) {
    && Inv(w.run, seed)
    && FollowInv(w.follower, w.run.s.log, w.run.h.framed, seed)
  }

  /** Frames are only ever appended, and the checkpoint only ever moves forward over them. */
  lemma StepOnlyAppends(r: Run, a: Action, env: Env, now: nat)
    requires Sane(r.s)
    ensures r.h.framed <= Next(r, a, env, now).h.framed
    ensures r.s.log.base <= Next(r, a, env, now).s.log.base
  {
    hide Folded, Merged, Tracked, Timeline.Apply, FoldOps, JoinsPending, WithText;
  }

  lemma StepFollowInv(w: Watch, a: Action, seed: Assembly, env: Env, now: nat)
    requires WatchInv(w, seed) && Allowed(w.run, a, seed)
    ensures WatchInv(w.(run := Next(w.run, a, env, now)), seed)
  {
    assert Sane(w.run.s);
    hide Take, Inv, Allowed, Next, Shows;
    StepInv(w.run, a, seed, env, now);
    StepOnlyAppends(w.run, a, env, now);
    var r, r' := w.run, Next(w.run, a, env, now);
    ShowsLater(r.s.log, r'.s.log, r.h.framed, r'.h.framed, seed, w.follower.from, w.follower.view);
    ShowsLater(r.s.log, r'.s.log, r.h.framed, r'.h.framed, seed, NextAfter(w.follower.last), w.follower.view);
  }

  lemma ShowsLater(log: Log<Frame>, log': Log<Frame>, framed: seq<Frame>, framed': seq<Frame>, seed: Assembly, cursor: int, view: Client)
    requires Shows(log, framed, seed, cursor, view) && log.base <= log'.base && framed <= framed'
    ensures Shows(log', framed', seed, cursor, view)
  {
    hide Take;
    assert framed[..cursor] == framed'[..cursor];
  }

  lemma WatchedInv(w: Watch, h: Happening, env: Env, seed: Assembly)
    requires WatchInv(w, seed) && (h.Acts? ==> Allowed(w.run, h.action, seed))
    ensures WatchInv(Watched(w, h, env, seed), seed)
  {
    hide FollowInv, Allowed, Next, Looked, Cut, Logged;
    match h
    case Acts(a, now) => StepFollowInv(w, a, seed, env, now);
    case Look => LookedInv(w.follower, w.run.s.log, w.run.h.framed, seed);
    case Lose(k) => CutInv(w.follower, w.run.s.log, w.run.h.framed, seed, k);
  }

  lemma {:induction false} WatchedAllInv(budget: nat, hs: seq<Happening>, env: Env, seed: Assembly)
    requires Timeline.Valid(seed) && AllHappen(budget, hs, env, seed)
    ensures WatchInv(WatchedAll(budget, hs, env, seed), seed)
  {
    hide Inv, Allowed, Watched, Timeline.Valid;
    if hs == [] {
      InitInv(budget, seed);
      assert Opening(budget).h.framed[..0] == [];
      TakeNothing(Start(seed));
    } else {
      var n := |hs| - 1;
      forall i | 0 <= i < n && hs[..n][i].Acts?
        ensures Allowed(WatchedAll(budget, hs[..n][..i], env, seed).run, hs[..n][i].action, seed)
      {
        assert hs[..n][..i] == hs[..i];
      }
      WatchedAllInv(budget, hs[..n], env, seed);
      WatchedInv(WatchedAll(budget, hs[..n], env, seed), hs[n], env, seed);
    }
  }

  /**
   A follower sees the run exactly once: however the log grew and folded and
   wherever its streams were lost, the next whole reading leaves it showing every
   frame ever appended, which with what is still held is every event emitted, at the
   cursor after the last, and every cursor it saw is one the run accepts to resume from.
   */
  lemma FollowerSeesEverything(budget: nat, hs: seq<Happening>, env: Env, seed: Assembly)
    requires Timeline.Valid(seed) && AllHappen(budget, hs, env, seed)
    ensures var w := WatchedAll(budget, hs, env, seed);
            && ResumeFrom(w.run.s.log, w.follower.last).From?
            && Looked(w.follower, w.run.s.log, seed).from == |w.run.h.framed| == Sent(w.run.s.log)
            && Looked(w.follower, w.run.s.log, seed).view == Take(Start(seed), w.run.h.framed)
            && Take(Looked(w.follower, w.run.s.log, seed).view, Held(w.run.s)) == Take(Start(seed), EmittedBy(ActionsOf(hs)))
  {
    hide Take, Looked, WatchedAll, AllHappen, Timeline.Valid, After, AllAllowed, Assembled, Grouped;
    WatchedAllInv(budget, hs, env, seed);
    var w := WatchedAll(budget, hs, env, seed);
    LookedInv(w.follower, w.run.s.log, w.run.h.framed, seed);
    WatchedIsAfter(budget, hs, env, seed);
    CoalescingRefines(budget, ActionsOf(hs), env, seed);
    TakeConcat(Start(seed), w.run.h.framed, Held(w.run.s));
  }

  /** A resumption is accepted exactly from the start or after an event of the run, however much is folded, and goes on with the next. */
  lemma ResumesAfterSent(budget: nat, actions: seq<Timed>, env: Env, seed: Assembly, last: LastEvent)
    requires Timeline.Valid(seed) && AllAllowed(budget, actions, env, seed)
    ensures var r := After(budget, actions, env);
            && (ResumeFrom(r.s.log, last).BadRequest? <==> last.Malformed? || (last.Cursor? && !(0 <= last.after < |r.h.framed|)))
            && (ResumeFrom(r.s.log, last).From? ==> ResumeFrom(r.s.log, last).cursor == if last.Cursor? then last.after + 1 else 0)
  {
    hide After, AllAllowed, Take, Timeline.Valid, AllLabelled, Timely, Coalesced, Queued, StreamRuns.Following;
    RunInv(budget, actions, env, seed);
  }

  /** What the stream did, its follower apart. */
  function ActionsOf(hs: seq<Happening>): seq<Timed> {
    if hs == [] then []
    else
      var h := hs[|hs| - 1];
      ActionsOf(hs[..|hs| - 1]) + if h.Acts? then [Timed(h.action, h.now)] else []
  }

  /** Following a run leaves it as it would be unfollowed. */
  lemma {:induction false} WatchedIsAfter(budget: nat, hs: seq<Happening>, env: Env, seed: Assembly)
    requires AllHappen(budget, hs, env, seed)
    ensures WatchedAll(budget, hs, env, seed).run == After(budget, ActionsOf(hs), env)
    ensures AllAllowed(budget, ActionsOf(hs), env, seed)
  {
    hide Next, Looked, Cut, Allowed, After, AllAllowed, Opening;
    if hs == [] {
      NothingDone(budget, env, seed);
    } else {
      var n := |hs| - 1;
      forall i | 0 <= i < n && hs[..n][i].Acts?
        ensures Allowed(WatchedAll(budget, hs[..n][..i], env, seed).run, hs[..n][i].action, seed)
      {
        assert hs[..n][..i] == hs[..i];
      }
      WatchedIsAfter(budget, hs[..n], env, seed);
      if hs[n].Acts? {
        AllowedNext(budget, ActionsOf(hs[..n]), Timed(hs[n].action, hs[n].now), env, seed);
      } else {
        assert ActionsOf(hs) == ActionsOf(hs[..n]);
      }
    }
  }

  lemma NothingDone(budget: nat, env: Env, seed: Assembly)
    ensures After(budget, [], env) == Opening(budget) && AllAllowed(budget, [], env, seed)
  {}

  lemma AllowedNext(budget: nat, actions: seq<Timed>, a: Timed, env: Env, seed: Assembly)
    requires AllAllowed(budget, actions, env, seed) && Allowed(After(budget, actions, env), a.action, seed)
    ensures AllAllowed(budget, actions + [a], env, seed)
    ensures After(budget, actions + [a], env) == Next(After(budget, actions, env), a.action, env, a.now)
  {
    hide Next, Allowed;
    var all := actions + [a];
    assert all[..|actions|] == actions;
    forall i | 0 <= i < |all| ensures Allowed(After(budget, all[..i], env), all[i].action, seed) {
      if i < |actions| { assert all[..i] == actions[..i]; }
    }
  }

  /** A fold moves frames into the checkpoint and leaves the cursor after the last where it was. */
  lemma SentUnchangedByFold<T>(log: Log<T>, ops: Ops<T>)
    ensures Sent(FoldedLog(log, ops)) == Sent(log)
    ensures !log.closed ==> FoldedLog(log, ops).frames == [] && FoldedLog(log, ops).base == Sent(log)
  {
    hide Folded;
  }
}
