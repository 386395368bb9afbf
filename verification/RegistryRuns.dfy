/**
 What the registry promises over whole runs, for every interleaving of its steps.
 */
module RegistryRuns {
  import opened Options
  import opened Registry
  import opened RegistryInvariant
  import opened RegistrySteps
  import opened RegistryMoves

  /** A history of the registry: the states it went through, and the step from each to the next. */
  ghost predicate History(gs: seq<State>, steps: seq<Step>) {
    && |gs| == |steps| + 1 && gs[0] == INIT
    && forall i :: 0 <= i < |steps| ==> Enabled(gs[i], steps[i]) && gs[i + 1] == Next(gs[i], steps[i])
  }

  lemma InitInv()
    ensures Inv(INIT)
  {
    assert Workers(INIT) == {};
  }

  /** Every reachable state is sound. */
  lemma {:induction false} HistoryInv(gs: seq<State>, steps: seq<Step>, i: nat)
    requires History(gs, steps) && i < |gs|
    ensures Inv(gs[i])
  {
    hide Inv, Enabled, Next;
    if i == 0 {
      InitInv();
    } else {
      HistoryInv(gs, steps, i - 1);
      StepInv(gs[i - 1], steps[i - 1]);
    }
  }

  // ---- What the invariant means ----

  /** A run that a chat's session holds, as its active run or in its queue. */
  predicate Holds(x: Session, r: RunRef) {
    x.active == Some(r) || r in x.queue
  }

  ghost predicate HeldBy(g: State, r: RunRef, c: Chat) {
    c in g.threads && g.threads[c] in g.sessions && Holds(g.sessions[g.threads[c]], r)
  }

  /** The runs map holds exactly the active and queued runs of the registered chats, each in one place. */
  lemma RunsAreHeldOnce(g: State, r: RunRef)
    requires Inv(g)
    ensures r in g.runs <==> exists c :: HeldBy(g, r, c)
    ensures forall c, d :: HeldBy(g, r, c) && HeldBy(g, r, d) ==> c == d
    ensures forall c :: HeldBy(g, r, c) ==> !(g.sessions[g.threads[c]].active == Some(r) && r in g.sessions[g.threads[c]].queue)
    ensures forall s :: s in g.sessions ==> Distinct(g.sessions[s].queue)
  {
    hide Requests, Workers, CountsOk, Quiet;
    if r in g.runs {
      assert RunOk(g, r);
      var s := g.all[r].session.value;
      assert SessionOk(g, s);
      assert HeldBy(g, r, g.sessions[s].chat);
    }
    forall c | HeldBy(g, r, c)
      ensures r in g.runs && g.all[r].session == Some(g.threads[c]) && g.sessions[g.threads[c]].chat == c
      ensures !(g.sessions[g.threads[c]].active == Some(r) && r in g.sessions[g.threads[c]].queue)
    {
      assert ThreadOk(g, c) && SessionOk(g, g.threads[c]) && RunOk(g, r);
    }
    forall s | s in g.sessions ensures Distinct(g.sessions[s].queue) { assert SessionOk(g, s); }
  }

  /** Two runs of one chat never both lie between the start of launch and the commit. */
  lemma OneActivePerChat(g: State, r: RunRef, t: RunRef)
    requires Inv(g) && r in g.all && t in g.all && IsActive(g.all[r].phase) && IsActive(g.all[t].phase)
    ensures HasSession(g, r) && HasSession(g, t)
    ensures g.sessions[SessionOf(g, r)].chat == g.sessions[SessionOf(g, t)].chat ==> r == t
  {
    hide Requests, Workers, CountsOk, Quiet;
    assert RunOk(g, r) && RunOk(g, t);
    assert SessionOk(g, SessionOf(g, r)) && SessionOk(g, SessionOf(g, t));
  }

  /** Whatever is queued waits behind a run of its chat, so SendQueued always has one to hand the chat on. */
  lemma QueuedBehindActive(g: State, r: RunRef)
    requires Inv(g) && HasSession(g, r) && r in g.sessions[SessionOf(g, r)].queue
    ensures var x := g.sessions[SessionOf(g, r)];
            && x.active.Some? && x.active.value in g.all && IsActive(g.all[x.active.value].phase)
            && x.chat in g.threads && g.threads[x.chat] == SessionOf(g, r)
            && |x.queue| <= MAX_QUEUED_TURNS && !x.deleted && !g.closing
  {
    hide Runs, Requests, Workers;
    assert SessionOk(g, SessionOf(g, r));
  }

  /** A chat in the registry is busy, or stands for one being moved to a device. */
  lemma RegisteredIsBusy(g: State, c: Chat)
    requires Inv(g) && c in g.threads
    ensures g.threads[c] in g.sessions
    ensures var x := g.sessions[g.threads[c]];
            x.chat == c && (x.active.Some? || (x.tombstone && x.deleted && x.queue == []))
  {
    hide Runs, Requests, Workers, Quiet;
    assert ThreadOk(g, c) && SessionOk(g, g.threads[c]);
  }

  /** One client request has at most one turn between its registration and its commit. */
  lemma OneRunPerRequest(g: State, r: RunRef, t: RunRef)
    requires Inv(g) && r in g.all && t in g.all && IsRequested(g.all[r].phase) && IsRequested(g.all[t].phase)
    ensures g.all[r].nonce == g.all[t].nonce ==> r == t
  {
    hide Sessions, Threads, Requests, Workers, Quiet, CountsOk;
    assert RunOk(g, r) && RunOk(g, t);
  }

  /** What every reachable state keeps, whatever the interleaving. */
  lemma ReachableRegistry(gs: seq<State>, steps: seq<Step>, i: nat)
    requires History(gs, steps) && i < |gs|
    ensures forall r :: r in gs[i].runs <==> exists c :: HeldBy(gs[i], r, c)
    ensures forall r, c, d :: HeldBy(gs[i], r, c) && HeldBy(gs[i], r, d) ==> c == d
    ensures forall s :: s in gs[i].sessions ==> SessionBounded(gs[i], s)
    ensures forall c :: c in gs[i].threads ==> ThreadOk(gs[i], c)
    ensures forall r, t :: r in gs[i].all && t in gs[i].all && r != t ==> Apart(gs[i], r, t)
  {
    hide Inv, Enabled, Next, HeldBy, Apart;
    HistoryInv(gs, steps, i);
    var g := gs[i];
    forall r ensures r in g.runs <==> exists c :: HeldBy(g, r, c) { RunsAreHeldOnce(g, r); }
    forall r, c, d | HeldBy(g, r, c) && HeldBy(g, r, d) ensures c == d { RunsAreHeldOnce(g, r); }
    forall s | s in g.sessions ensures SessionBounded(g, s) { BoundedHere(g, s); }
    forall c | c in g.threads ensures ThreadOk(g, c) { RegisteredIsBusy(g, c); }
    forall r, t | r in g.all && t in g.all && r != t ensures Apart(g, r, t) { TwoApart(g, r, t); }
  }

  /** A queue is bounded, repeats no turn, and waits behind a run of its chat. */
  ghost predicate SessionBounded(g: State, s: SessionRef)
    requires s in g.sessions
  {
    var x := g.sessions[s];
    |x.queue| <= MAX_QUEUED_TURNS && Distinct(x.queue) && (x.queue != [] ==> x.active.Some? && x.active.value in g.all)
  }

  /** Two turns never run in one chat at once, nor live under one request. */
  ghost predicate Apart(g: State, r: RunRef, t: RunRef)
    requires r in g.all && t in g.all
  {
    && (IsActive(g.all[r].phase) && IsActive(g.all[t].phase) ==>
          HasSession(g, r) && HasSession(g, t) && g.sessions[SessionOf(g, r)].chat != g.sessions[SessionOf(g, t)].chat)
    && (IsRequested(g.all[r].phase) && IsRequested(g.all[t].phase) ==> g.all[r].nonce != g.all[t].nonce)
  }

  lemma BoundedHere(g: State, s: SessionRef)
    requires Inv(g) && s in g.sessions
    ensures SessionBounded(g, s)
  {
    hide Runs, Requests, Threads, Workers, Quiet;
    assert SessionOk(g, s);
  }

  lemma TwoApart(g: State, r: RunRef, t: RunRef)
    requires Inv(g) && r in g.all && t in g.all && r != t
    ensures Apart(g, r, t)
  {
    hide Inv;
    if IsActive(g.all[r].phase) && IsActive(g.all[t].phase) { OneActivePerChat(g, r, t); }
    if IsRequested(g.all[r].phase) && IsRequested(g.all[t].phase) { OneRunPerRequest(g, r, t); }
  }

  // ---- Every turn moves along its lifecycle ----

  /** From one moment of a history to a later one: turns stay known, and closes and events only add up. */
  lemma {:induction false} HistoryMoves(gs: seq<State>, steps: seq<Step>, i: nat, j: nat, r: RunRef)
    requires History(gs, steps) && i <= j < |gs| && r in gs[i].all
    ensures r in gs[j].all
    ensures var x, y := gs[i].all[r], gs[j].all[r];
            && y.nonce == x.nonce && (x.session.Some? ==> y.session == x.session)
            && x.accepted <= y.accepted && x.finished <= y.finished && x.terminals <= y.terminals && x.started <= y.started
            && (x.cancelled ==> y.cancelled) && (x.yielded ==> y.yielded)
  {
    hide Inv, Enabled, Next, Precedes;
    if i < j {
      HistoryMoves(gs, steps, i, j - 1, r);
      HistoryInv(gs, steps, j - 1);
      StepMoves(gs[j - 1], steps[j - 1]);
    }
  }

  /** Each channel of a turn is closed at most once, and one terminal event ends it, whichever way it ends. */
  lemma ClosedOnce(gs: seq<State>, steps: seq<Step>, i: nat, r: RunRef)
    requires History(gs, steps) && i < |gs| && r in gs[i].all
    ensures var x := gs[i].all[r];
            && x.accepted <= 1 && x.finished <= 1 && x.terminals <= 1 && x.started <= 1
            && x.finished <= x.terminals
            && (x.phase.Ended? ==> x.finished == 1 && x.terminals == 1 && (x.owes || x.accepted == 1))
            && (x.phase.Refused? ==> x.accepted == 1 && x.finished == 0 && x.terminals == 0 && x.started == 0)
            && (x.terminals == 1 ==> x.phase.Closing? || x.phase.Ended?)
    ensures gs[i].all[r].phase.Ended? || gs[i].all[r].phase.Refused? ==>
              forall j :: i <= j < |gs| ==> r in gs[j].all && gs[j].all[r].phase == gs[i].all[r].phase
  {
    hide Sessions, Threads, Requests, Workers, Quiet, Enabled, Next;
    HistoryInv(gs, steps, i);
    assert RunOk(gs[i], r);
    if gs[i].all[r].phase.Ended? || gs[i].all[r].phase.Refused? {
      forall j | i <= j < |gs| ensures r in gs[j].all && gs[j].all[r].phase == gs[i].all[r].phase {
        FinalStays(gs, steps, i, j, r);
      }
    }
  }

  lemma {:induction false} FinalStays(gs: seq<State>, steps: seq<Step>, i: nat, j: nat, r: RunRef)
    requires History(gs, steps) && i <= j < |gs| && r in gs[i].all
    requires gs[i].all[r].phase.Ended? || gs[i].all[r].phase.Refused?
    ensures r in gs[j].all && gs[j].all[r].phase == gs[i].all[r].phase
  {
    hide Inv, Enabled, Next;
    if i < j {
      FinalStays(gs, steps, i, j - 1, r);
      HistoryInv(gs, steps, j - 1);
      StepMoves(gs[j - 1], steps[j - 1]);
    }
  }

  // ---- Turns start in queue order ----

  ghost predicate Before(q: seq<RunRef>, a: RunRef, b: RunRef) {
    exists i, j :: 0 <= i < j < |q| && q[i] == a && q[j] == b
  }

  lemma {:induction false} WithoutKeepsOrder(q: seq<RunRef>, r: RunRef, a: RunRef, b: RunRef)
    requires Before(q, a, b) && r != a && r != b
    ensures Before(Without(q, r), a, b)
  {
    var i, j :| 0 <= i < j < |q| && q[i] == a && q[j] == b;
    if q[0] == r {
      assert q[1..][i - 1] == a && q[1..][j - 1] == b;
    } else {
      var rest := q[1..];
      assert rest[j - 1] == b;
      if i == 0 {
        WithoutHas(rest, r, b);
        BeforeHead(Without(rest, r), a, b);
      } else {
        assert rest[i - 1] == a;
        WithoutKeepsOrder(rest, r, a, b);
        BeforeCons(Without(rest, r), q[0], a, b);
      }
    }
  }

  lemma {:induction false} WithoutHas(q: seq<RunRef>, r: RunRef, t: RunRef)
    requires t in q && t != r
    ensures t in Without(q, r)
  {
    if q[0] != r && q[0] != t {
      assert t in q[1..];
      WithoutHas(q[1..], r, t);
    } else if q[0] == r {
      assert t in q[1..];
    }
  }

  /** While a waits, what stood behind it stays behind it or ends, unless it is sent ahead. */
  lemma QueueOrder(x: Session, y: Session, step: Step, a: RunRef, b: RunRef)
    requires QueueMoves(x, y, step) && Distinct(x.queue) && Before(x.queue, a, b) && step != Send(b) && a in y.queue
    requires x.active != Some(b)
    ensures Before(y.queue, a, b) || b !in y.queue
    ensures y.active != Some(b)
  {
    var i, j :| 0 <= i < j < |x.queue| && x.queue[i] == a && x.queue[j] == b;
    if step.Admit? && y.queue == x.queue + [step.r] {
      assert y.queue[i] == a && y.queue[j] == b;
    } else if IsAdvance(step) && y.queue != x.queue && y.queue != [] {
      if i == 0 {
        HeadGone(x.queue);
      } else {
        assert y.queue[i - 1] == a && y.queue[j - 1] == b;
      }
    } else if (step.Remove? || step.Cancel?) && y.queue != x.queue {
      WithoutFacts(x.queue, step.r);
      if step.r != b { WithoutKeepsOrder(x.queue, step.r, a, b); }
    } else if step.Send? && y.queue != x.queue {
      SendOrder(x.queue, step.r, a, b);
    }
  }

  lemma HeadGone(q: seq<RunRef>)
    requires Distinct(q) && |q| > 0
    ensures q[0] !in q[1..]
  {}

  lemma SendOrder(q: seq<RunRef>, r: RunRef, a: RunRef, b: RunRef)
    requires Before(q, a, b) && Distinct(q) && r in q && r != b
    ensures Before([r] + Without(q, r), a, b)
  {
    hide Without, Before, Distinct;
    if r == a {
      BeforeHas(q, a, b);
      WithoutHas(q, r, b);
      BeforeHead(Without(q, r), a, b);
    } else {
      WithoutKeepsOrder(q, r, a, b);
      BeforeCons(Without(q, r), r, a, b);
    }
  }

  lemma BeforeHas(q: seq<RunRef>, a: RunRef, b: RunRef)
    requires Before(q, a, b)
    ensures b in q
  {}

  lemma BeforeHead(p: seq<RunRef>, a: RunRef, b: RunRef)
    requires b in p
    ensures Before([a] + p, a, b)
  {
    var k :| 0 <= k < |p| && p[k] == b;
    assert ([a] + p)[0] == a && ([a] + p)[k + 1] == b;
  }

  lemma BeforeCons(p: seq<RunRef>, r: RunRef, a: RunRef, b: RunRef)
    requires Before(p, a, b)
    ensures Before([r] + p, a, b)
  {
    var k, l :| 0 <= k < l < |p| && p[k] == a && p[l] == b;
    assert ([r] + p)[k + 1] == a && ([r] + p)[l + 1] == b;
  }

  /** A turn that has left its queue for good, started or ended. */
  predicate Left(p: Phase) { !p.Registered? && !p.Refusing? && !p.Refused? && !p.Queued? }

  ghost predicate StillBehind(g: State, s: SessionRef, a: RunRef, b: RunRef) {
    && a in g.all && b in g.all && s in g.sessions
    && (Left(g.all[a].phase) || g.all[b].phase.Ended? || Before(g.sessions[s].queue, a, b))
  }

  lemma BehindStep(g: State, step: Step, s: SessionRef, a: RunRef, b: RunRef)
    requires Inv(g) && Enabled(g, step) && step != Send(b) && StillBehind(g, s, a, b)
    ensures StillBehind(Next(g, step), s, a, b)
  {
    hide Core, Workers, Quiet, Enabled, Next, QueueMoves, Before;
    StepMoves(g, step);
    StepQueues(g, step);
    StepInv(g, step);
    if !Left(g.all[a].phase) && !g.all[b].phase.Ended? {
      BehindStays(g, Next(g, step), step, s, a, b);
    }
  }

  lemma BehindStays(g: State, g': State, step: Step, s: SessionRef, a: RunRef, b: RunRef)
    requires Core(g) && Core(g') && s in g.sessions && s in g'.sessions && a in g.all && b in g.all
    requires QueueMoves(g.sessions[s], g'.sessions[s], step) && AllMove(g, g')
    requires Before(g.sessions[s].queue, a, b) && step != Send(b)
    ensures Left(g'.all[a].phase) || g'.all[b].phase.Ended? || Before(g'.sessions[s].queue, a, b)
  {
    hide Core, QueueMoves;
    var q := g.sessions[s].queue;
    var i, j :| 0 <= i < j < |q| && q[i] == a && q[j] == b;
    QueuedFacts(g, s, a);
    QueuedFacts(g, s, b);
    assert Moves(g.all[a], g'.all[a]) && Moves(g.all[b], g'.all[b]);
    SessionFacts(g, s);
    if g'.all[a].phase.Queued? {
      QueuedIsThere(g', s, a);
      QueueOrder(g.sessions[s], g'.sessions[s], step, a, b);
      if b !in g'.sessions[s].queue { NotThere(g', s, b); }
    }
  }

  lemma QueuedIsThere(g: State, s: SessionRef, a: RunRef)
    requires Core(g) && s in g.sessions && a in g.all && g.all[a].session == Some(s) && g.all[a].phase.Queued?
    ensures a in g.sessions[s].queue
  {
    assert RunOk(g, a);
  }

  lemma NotThere(g: State, s: SessionRef, b: RunRef)
    requires Core(g) && s in g.sessions && b in g.all && g.all[b].session == Some(s)
    requires b !in g.sessions[s].queue && g.sessions[s].active != Some(b)
    requires g.all[b].phase.Queued? || g.all[b].phase.Launching? || g.all[b].phase.Ended?
    ensures g.all[b].phase.Ended?
  {
    assert RunOk(g, b);
  }

  /** Turns start in the order they stand in: b does not start while a waits ahead of it, unless it is sent. */
  lemma {:induction false} StartsInOrder(gs: seq<State>, steps: seq<Step>, i: nat, j: nat, s: SessionRef, a: RunRef, b: RunRef)
    requires History(gs, steps) && i <= j < |gs| && s in gs[i].sessions && Before(gs[i].sessions[s].queue, a, b)
    requires forall k :: i <= k < j ==> steps[k] != Send(b)
    ensures StillBehind(gs[j], s, a, b)
    ensures gs[j].all[a].phase.Queued? ==> gs[j].all[b].phase.Queued? || gs[j].all[b].phase.Ended?
  {
    hide Inv, Enabled, Next;
    HistoryInv(gs, steps, i);
    if i == j {
      BeforeFacts(gs[i], s, a, b);
    } else {
      StartsInOrder(gs, steps, i, j - 1, s, a, b);
      HistoryInv(gs, steps, j - 1);
      BehindStep(gs[j - 1], steps[j - 1], s, a, b);
    }
    HistoryInv(gs, steps, j);
    if gs[j].all[a].phase.Queued? && !gs[j].all[b].phase.Ended? { BeforeFacts(gs[j], s, a, b); }
  }

  lemma BeforeFacts(g: State, s: SessionRef, a: RunRef, b: RunRef)
    requires Inv(g) && s in g.sessions && Before(g.sessions[s].queue, a, b)
    ensures a in g.all && b in g.all && g.all[a].phase.Queued? && g.all[b].phase.Queued?
  {
    hide Core, Workers, Quiet;
    QueuedFacts(g, s, a);
    QueuedFacts(g, s, b);
  }

  // ---- A turn sent ahead is next ----

  /** r is first in its chat's queue and the running reply is to hand the chat on to it. */
  ghost predicate IsNext(g: State, s: SessionRef, r: RunRef) {
    && s in g.sessions && |g.sessions[s].queue| > 0 && g.sessions[s].queue[0] == r
    && g.sessions[s].active.Some? && g.sessions[s].active.value in g.all && g.all[g.sessions[s].active.value].yielded
  }

  lemma SendPutsFirst(g: State, r: RunRef)
    requires Inv(g) && HasSession(g, r) && r in g.sessions[SessionOf(g, r)].queue
    ensures IsNext(Next(g, Send(r)), SessionOf(g, r), r)
  {
    hide Inv, Without;
    QueuedBehindActive(g, r);
  }

  /** Sending a turn tells the running reply to stop and hand the chat on, unless it is already ending. */
  lemma SendStops(g: State, r: RunRef)
    requires Inv(g) && HasSession(g, r) && r in g.sessions[SessionOf(g, r)].queue
    ensures var v, g' := g.sessions[SessionOf(g, r)].active, Next(g, Send(r));
            && v.Some? && v.value in g.all && v.value in g'.all
            && g'.all[v.value].yielded && g'.all[v.value].phase == g.all[v.value].phase
            && (g'.all[v.value].cancelled || g.all[v.value].phase.Ending?)
            && (g.all[v.value].phase.Ending? ==> g'.all[v.value].cancelled == g.all[v.value].cancelled)
  {
    hide Inv, Without;
    QueuedBehindActive(g, r);
  }

  /** The next advance of the chat gives it to r. */
  lemma AdvancePicksNext(g: State, s: SessionRef, r: RunRef, step: Step)
    requires Inv(g) && Enabled(g, step) && IsNext(g, s, r) && IsAdvance(step) && g.sessions[s].active == Some(step.r)
    ensures var g' := Next(g, step);
            s in g'.sessions && g'.sessions[s].active == Some(r) && r in g'.all && g'.all[r].phase == Launching
  {
    hide Core, Workers, Quiet, Advance, MayJoin, MayTransfer;
    QueuedFacts(g, s, r);
    QueuedBehindActive(g, r);
    SessionFacts(g, s);
    AdvanceFacts(g, step.r);
    if step.Commit? {
      PromotedShape(g, step.r, true, Finishing);
    } else {
      PromotedShape(g, step.r, true, Unstarted);
    }
  }

  ghost predicate OtherSend(g: State, step: Step, s: SessionRef, r: RunRef) {
    step.Send? && step.r != r && s in g.sessions && step.r in g.sessions[s].queue
  }

  lemma NextStep(g: State, step: Step, s: SessionRef, r: RunRef)
    requires Inv(g) && Enabled(g, step) && IsNext(g, s, r) && !OtherSend(g, step, s, r)
    requires r in Next(g, step).all && Next(g, step).all[r].phase.Queued?
    ensures IsNext(Next(g, step), s, r)
  {
    hide Core, Workers, Quiet, Enabled, Next, QueueMoves, Precedes;
    StepMoves(g, step);
    StepQueues(g, step);
    StepInv(g, step);
    QueuedFacts(g, s, r);
    SessionFacts(g, s);
    assert Moves(g.all[r], Next(g, step).all[r]);
    QueuedIsThere(Next(g, step), s, r);
    HeadStays(g.sessions[s], Next(g, step).sessions[s], step, r);
  }

  lemma HeadStays(x: Session, y: Session, step: Step, r: RunRef)
    requires QueueMoves(x, y, step) && Distinct(x.queue) && |x.queue| > 0 && x.queue[0] == r && r in y.queue
    requires step.Send? && step.r in x.queue ==> step.r == r
    ensures |y.queue| > 0 && y.queue[0] == r && y.active == x.active
  {
    HeadGone(x.queue);
  }

  /**
   After SendQueued(r), r stays first for as long as it waits and no other turn of
   the chat is sent, so the chat's next advance starts it.
   */
  lemma {:induction false} SentIsNext(gs: seq<State>, steps: seq<Step>, i: nat, j: nat, r: RunRef)
    requires History(gs, steps) && i < j < |gs| && steps[i] == Send(r) && HasSession(gs[i], r)
    requires r in gs[i].sessions[SessionOf(gs[i], r)].queue
    requires forall k :: i < k < j ==> !OtherSend(gs[k], steps[k], SessionOf(gs[i], r), r)
    requires r in gs[j].all && gs[j].all[r].phase.Queued?
    ensures IsNext(gs[j], SessionOf(gs[i], r), r)
    ensures j < |steps| && IsAdvance(steps[j]) && gs[j].sessions[SessionOf(gs[i], r)].active == Some(steps[j].r) ==>
              r in gs[j + 1].all && gs[j + 1].all[r].phase == Launching
  {
    hide Inv, Enabled, Next, OtherSend, IsNext;
    var s := SessionOf(gs[i], r);
    HistoryInv(gs, steps, i);
    HistoryInv(gs, steps, j - 1);
    if i + 1 == j {
      SendPutsFirst(gs[i], r);
    } else {
      StayedQueued(gs, steps, i, j - 1, r);
      SentIsNext(gs, steps, i, j - 1, r);
      NextStep(gs[j - 1], steps[j - 1], s, r);
    }
    HistoryInv(gs, steps, j);
    SentActive(gs[j], s, r);
    if j < |steps| && IsAdvance(steps[j]) && gs[j].sessions[s].active == Some(steps[j].r) {
      AdvancePicksNext(gs[j], s, r, steps[j]);
    }
  }

  lemma SentActive(g: State, s: SessionRef, r: RunRef)
    requires IsNext(g, s, r)
    ensures s in g.sessions
  {}

  /** A turn queued at two moments was queued between them. */
  lemma StayedQueued(gs: seq<State>, steps: seq<Step>, i: nat, j: nat, r: RunRef)
    requires History(gs, steps) && i <= j < |gs| - 1 && HasSession(gs[i], r) && r in gs[i].sessions[SessionOf(gs[i], r)].queue
    requires r in gs[j + 1].all && gs[j + 1].all[r].phase.Queued?
    ensures r in gs[j].all && gs[j].all[r].phase.Queued?
  {
    hide Inv, Enabled, Next;
    HistoryInv(gs, steps, i);
    HistoryInv(gs, steps, j);
    assert gs[i].all[r].phase.Queued? by { QueuedPhase(gs[i], r); }
    NeverBack(gs, steps, i, j, r);
    StepMoves(gs[j], steps[j]);
  }

  lemma QueuedPhase(g: State, r: RunRef)
    requires Inv(g) && HasSession(g, r) && r in g.sessions[SessionOf(g, r)].queue
    ensures g.all[r].phase.Queued?
  {
    hide Core, Workers, Quiet;
    QueuedFacts(g, SessionOf(g, r), r);
  }

  lemma {:induction false} NeverBack(gs: seq<State>, steps: seq<Step>, i: nat, j: nat, r: RunRef)
    requires History(gs, steps) && i <= j < |gs| && r in gs[i].all && gs[i].all[r].phase.Queued?
    ensures r in gs[j].all && (gs[j].all[r].phase.Queued? || Left(gs[j].all[r].phase))
  {
    hide Inv, Enabled, Next;
    if i < j {
      NeverBack(gs, steps, i, j - 1, r);
      HistoryInv(gs, steps, j - 1);
      StepMoves(gs[j - 1], steps[j - 1]);
    }
  }

  // ---- A reply cancelled without a yield ends the queue ----

  /** What the commit of a run does to the turns queued behind it. */
  lemma CommitDecides(g: State, r: RunRef)
    requires Inv(g) && Enabled(g, Commit(r))
    ensures var s, g' := SessionOf(g, r), Next(g, Commit(r));
            var q := g.sessions[s].queue;
            && s in g'.sessions && g'.all.Keys == g.all.Keys && (forall t :: t in q ==> t in g.all)
            && (g.all[r].phase.stopped && !g.all[r].yielded ==>
                  forall t :: t in q ==> g'.all[t].phase.Ended? && g'.all[t].started == 0)
            && (!g.all[r].phase.stopped || g.all[r].yielded ==>
                  (forall k :: 1 <= k < |q| ==> g'.all[q[k]] == g.all[q[k]])
                  && (q != [] ==> g'.all[q[0]].phase == Launching && g'.sessions[s].active == Some(q[0])))
            && (g'.sessions[s].active.None? ==> g.sessions[s].chat !in g'.threads)
  {
    hide Core, Workers, Advance, MayJoin, MayTransfer, Forget;
    var s, goOn := SessionOf(g, r), !g.all[r].phase.stopped || g.all[r].yielded;
    var g', q := Next(g, Commit(r)), g.sessions[SessionOf(g, r)].queue;
    AdvanceFacts(g, r);
    forall t | t in q ensures t in g.all && g.all[t].started == 0 { QueuedNotStarted(g, s, t); }
    if GoesOn(g, g.sessions[s], goOn) {
      PromotedShape(g, r, goOn, Finishing);
      HeadGone(q);
    } else {
      AdvanceClearsShape(g, r, goOn, Finishing);
    }
  }

  lemma QueuedNotStarted(g: State, s: SessionRef, t: RunRef)
    requires Core(g) && s in g.sessions && t in g.sessions[s].queue
    ensures t in g.all && g.all[t].started == 0
  {
    hide Threads, Requests;
    SessionFacts(g, s);
    assert RunOk(g, t);
  }

  lemma {:induction false} EndingStays(gs: seq<State>, steps: seq<Step>, i: nat, j: nat, r: RunRef)
    requires History(gs, steps) && i < j < |gs| && steps[i] == BeginEnding(r) && InPhase(gs[i], r, Running)
    ensures r in gs[j].all
    ensures gs[j].all[r].phase.Ending? ==> gs[j].all[r].phase.stopped == gs[i].all[r].cancelled
    ensures !gs[j].all[r].phase.Running? && !gs[j].all[r].phase.Launching? && Left(gs[j].all[r].phase)
  {
    hide Inv, Enabled;
    HistoryInv(gs, steps, j - 1);
    if i + 1 < j {
      EndingStays(gs, steps, i, j - 1, r);
      StepMoves(gs[j - 1], steps[j - 1]);
    }
  }

  /** A started run that was cancelled when it began to end, and never told to yield, takes the whole queue with it. */
  lemma CancelEndsQueue(gs: seq<State>, steps: seq<Step>, i: nat, j: nat, r: RunRef)
    requires History(gs, steps) && i < j < |steps| && steps[i] == BeginEnding(r) && steps[j] == Commit(r)
    requires r in gs[i].all && gs[i].all[r].cancelled
    requires r in gs[j].all && !gs[j].all[r].yielded
    ensures HasSession(gs[j], r)
    ensures forall t :: t in gs[j].sessions[SessionOf(gs[j], r)].queue ==>
              t in gs[j + 1].all && gs[j + 1].all[t].phase.Ended? && gs[j + 1].all[t].started == 0
  {
    hide Inv, Next, Advance, MayJoin, MayTransfer;
    HistoryInv(gs, steps, j);
    EndingStays(gs, steps, i, j, r);
    CommitDecides(gs[j], r);
  }

  // ---- Stopping ----

  /** A cancel ends a waiting turn, tells a running one to stop, and leaves one that is ending. */
  lemma CancelStops(g: State, r: RunRef)
    requires Inv(g) && HasSession(g, r)
    ensures var x, g' := g.sessions[SessionOf(g, r)], Next(g, Cancel(r));
            && r in g'.all
            && (r in x.queue ==> g'.all[r].phase.Ended? && g'.all[r].cancelled && r !in g'.runs)
            && (x.active == Some(r) && !g.all[r].phase.Ending? ==> g'.all[r] == g.all[r].(cancelled := true))
            && (r !in x.queue && (x.active != Some(r) || g.all[r].phase.Ending?) ==> g' == g)
  {
    hide Sound, Quiet, RemoveQueued, IdleThreads, Forget, Without;
    if r in g.sessions[SessionOf(g, r)].queue {
      RemoveQueuedShape(g, r);
      ActiveNotQueued(g, r);
    }
  }

  lemma ActiveNotQueued(g: State, r: RunRef)
    requires Inv(g) && HasSession(g, r) && r in g.sessions[SessionOf(g, r)].queue
    ensures g.sessions[SessionOf(g, r)].active != Some(r)
  {
    hide Core, Workers, Quiet;
    QueuedFacts(g, SessionOf(g, r), r);
    SessionFacts(g, SessionOf(g, r));
  }

  /** A chat stopped is deleted, its reply told to stop, its queue ended, and it leaves the registry unless its reply is still running. */
  lemma StopStops(g: State, s: SessionRef)
    requires Inv(g) && s in g.sessions
    ensures var x, g' := g.sessions[s], StopSession(g, s);
            && s in g'.sessions && g'.sessions[s] == x.(deleted := true, queue := [])
            && (x.active.Some? ==> x.active.value in g'.all && g'.all[x.active.value].cancelled)
            && (forall t :: t in x.queue ==> t in g'.all && g'.all[t].phase.Ended? && t !in g'.runs)
            && (x.active.None? ==> x.chat !in g'.threads || g'.threads[x.chat] != s)
  {
    hide Core, Quiet, Workers, CancelActive, EndRuns, DropIdle, Forget;
    var x, g1 := g.sessions[s], CancelActive(g, s);
    CancelActiveSound(g, s);
    ClearedShape(g1, s, x.(deleted := true));
    MembersOf(x.queue);
    forall t | t in x.queue ensures t in g1.all { QueuedFacts(g1, s, t); }
    if x.active.Some? { ActiveCancelled(g, s); }
  }

  lemma ActiveCancelled(g: State, s: SessionRef)
    requires Inv(g) && s in g.sessions && g.sessions[s].active.Some?
    ensures var v := g.sessions[s].active.value;
            v in CancelActive(g, s).all && CancelActive(g, s).all[v].cancelled && v !in g.sessions[s].queue
  {
    hide Core, Workers, Quiet;
    SessionFacts(g, s);
    if g.sessions[s].active.value in g.sessions[s].queue { QueuedFacts(g, s, g.sessions[s].active.value); }
  }

  // ---- After a shutdown ----

  lemma ClosedStep(g: State, step: Step)
    requires Inv(g) && Enabled(g, step) && g.closing
    ensures var g' := Next(g, step);
            && g'.closing && g'.all.Keys == g.all.Keys && g'.working <= g.working
            && forall r :: r in g.all ==> g'.all[r].started == g.all[r].started
  {
    hide Core, Quiet, Moves;
    var g' := Next(g, step);
    StepMoves(g, step);
    StepInv(g, step);
    ClosedFlat(g, step);
    forall r | r in g.all
      ensures g'.all[r].started == g.all[r].started && (IsWorking(g'.all[r].phase) ==> IsWorking(g.all[r].phase))
    {
      ClosedRun(g, step, r);
    }
    assert Workers(g') <= Workers(g);
    Fewer(Workers(g'), Workers(g));
  }

  lemma Fewer(a: set<RunRef>, b: set<RunRef>)
    requires a <= b
    ensures |a| <= |b|
  {
    assert b == a + (b - a);
  }

  lemma ClosedRun(g: State, step: Step, r: RunRef)
    requires Inv(g) && Enabled(g, step) && g.closing && r in g.all && Inv(Next(g, step)) && AllMove(g, Next(g, step))
    ensures Next(g, step).all[r].started == g.all[r].started
    ensures IsWorking(Next(g, step).all[r].phase) ==> IsWorking(g.all[r].phase)
  {
    hide Sessions, Threads, Requests, Quiet, Workers, Next;
    var g' := Next(g, step);
    assert Moves(g.all[r], g'.all[r]);
    assert RunOk(g, r) && RunOk(g', r);
    if g.all[r].phase.Launching? { LaunchingStays(g, step, r); }
  }

  lemma LaunchingStays(g: State, step: Step, r: RunRef)
    requires Inv(g) && Enabled(g, step) && g.closing && InPhase(g, r, Launching) && AllMove(g, Next(g, step))
    ensures !Next(g, step).all[r].phase.Running?
  {
    hide Core, Quiet, Workers, Moves, Admitted, Advance, Cancelled, Sent, RemoveQueued, StopEach, ShutEach, DropIdle, MayJoin, MayTransfer, Forget;
    OnlyStartRuns(g, step, r);
  }

  /** No step but Start makes a turn run. */
  lemma OnlyStartRuns(g: State, step: Step, r: RunRef)
    requires Inv(g) && Enabled(g, step) && InPhase(g, r, Launching) && !step.Start? && r in Next(g, step).all
    ensures !Next(g, step).all[r].phase.Running?
  {
    hide Core, Quiet, Workers, Advance, Admitted, Cancelled, Sent, RemoveQueued, StopEach, ShutEach, MayJoin, MayTransfer;
    match step
    case FailToStart(t) => AdvanceRunsNone(g, t, true, Unstarted, r);
    case Commit(t) => AdvanceRunsNone(g, t, !g.all[t].phase.stopped || g.all[t].yielded, Finishing, r);
    case Admit(_, _, _, _, _, _) => AdmitRunsNone(g, step, r);
    case Cancel(t) => OtherRunsNone(g, step, r);
    case Send(t) => OtherRunsNone(g, step, r);
    case Remove(t) => OtherRunsNone(g, step, r);
    case StopThread(chat) => StopEachStops(g, [chat], x => true);
    case StopDevice(chat) => StopEachStops(g, [chat], (x: Session) => x.device);
    case StopDevices(owner, chats) => StopEachStops(g, chats, (x: Session) => x.device && x.owner == owner);
    case Shutdown(chats) => ShutEachStops(g, chats);
    case _ =>
  }

  lemma AdvanceRunsNone(g: State, t: RunRef, goOn: bool, after: Phase, r: RunRef)
    requires Core(g) && HasSession(g, t) && IsActive(g.all[t].phase) && InPhase(g, r, Launching) && !after.Running?
    ensures r in Advance(g, t, goOn, after).all && !Advance(g, t, goOn, after).all[r].phase.Running?
  {
    hide Core, Advance, IdleThreads, Forget;
    var s, g' := SessionOf(g, t), Advance(g, t, goOn, after);
    AdvanceFacts(g, t);
    var q := g.sessions[s].queue;
    forall u | u in q ensures u in g.all && g.all[u].phase.Queued? { QueuedFacts(g, s, u); }
    if GoesOn(g, g.sessions[s], goOn) {
      PromotedShape(g, t, goOn, after);
    } else {
      AdvanceClearsShape(g, t, goOn, after);
      MembersOf(q);
    }
  }

  lemma AdmitRunsNone(g: State, step: Step, r: RunRef)
    requires step.Admit? && Enabled(g, step) && InPhase(g, r, Launching)
    ensures r in Next(g, step).all && !Next(g, step).all[r].phase.Running?
  {}

  lemma OtherRunsNone(g: State, step: Step, r: RunRef)
    requires (step.Cancel? || step.Send? || step.Remove?) && Enabled(g, step) && InPhase(g, r, Launching)
    ensures r in Next(g, step).all && !Next(g, step).all[r].phase.Running?
  {
    hide RemoveQueued, Without;
    RemoveRunsNone(g, step.r, r);
  }

  lemma RemoveRunsNone(g: State, t: RunRef, r: RunRef)
    requires HasSession(g, t) && InPhase(g, r, Launching)
    ensures r in RemoveQueued(g, t).all && !RemoveQueued(g, t).all[r].phase.Running?
  {
    hide RemoveQueued, IdleThreads, Forget;
    if t in g.sessions[SessionOf(g, t)].queue { RemoveQueuedShape(g, t); } else { RemoveNothing(g, t); }
  }

  lemma {:induction false} StopEachFlat(g: State, chats: seq<Chat>, which: Session -> bool)
    ensures StopEach(g, chats, which).closing == g.closing
  {
    hide StopSession;
    if chats != [] {
      var g1, c := StopEach(g, chats[..|chats| - 1], which), chats[|chats| - 1];
      StopEachFlat(g, chats[..|chats| - 1], which);
      if c in g1.threads && g1.threads[c] in g1.sessions && which(g1.sessions[g1.threads[c]]) {
        StopSessionFlat(g1, g1.threads[c]);
      }
    }
  }

  lemma StopSessionFlat(g: State, s: SessionRef)
    requires s in g.sessions
    ensures StopSession(g, s).closing == g.closing
  {}

  lemma RemoveFlat(g: State, r: RunRef)
    requires HasSession(g, r)
    ensures RemoveQueued(g, r).closing == g.closing && RemoveQueued(g, r).all.Keys == g.all.Keys
  {
    hide RemoveQueued, IdleThreads, Forget;
    if r in g.sessions[SessionOf(g, r)].queue { RemoveQueuedShape(g, r); } else { RemoveNothing(g, r); }
  }

  lemma AdvanceKeys(g: State, r: RunRef, goOn: bool, after: Phase)
    requires Core(g) && HasSession(g, r) && IsActive(g.all[r].phase)
    ensures Advance(g, r, goOn, after).all.Keys == g.all.Keys && Advance(g, r, goOn, after).closing == g.closing
  {
    hide Core, Advance, IdleThreads, Forget;
    AdvanceFacts(g, r);
    AdvanceFlat(g, r, goOn, after);
    var x := g.sessions[SessionOf(g, r)];
    if GoesOn(g, x, goOn) {
      QueuedFacts(g, SessionOf(g, r), x.queue[0]);
      PromotedShape(g, r, goOn, after);
    } else {
      AdvanceClearsShape(g, r, goOn, after);
    }
  }

  lemma CancelFlat(g: State, r: RunRef)
    requires HasSession(g, r)
    ensures Cancelled(g, r).closing == g.closing && Cancelled(g, r).all.Keys == g.all.Keys
  {
    hide RemoveQueued;
    RemoveFlat(g, r);
  }

  lemma SendFlat(g: State, r: RunRef)
    requires HasSession(g, r)
    ensures Sent(g, r).closing == g.closing && Sent(g, r).all.Keys == g.all.Keys
  {}

  /** Once the service is closing it stays so, and takes no turn. */
  lemma ClosedFlat(g: State, step: Step)
    requires Inv(g) && Enabled(g, step) && g.closing
    ensures Next(g, step).closing && Next(g, step).all.Keys == g.all.Keys
  {
    hide Core, Workers, Quiet, Stops, Forget, Admitted, Advance, Cancelled, Sent, RemoveQueued, StopEach, ShutEach, MayJoin, MayTransfer;
    match step
    case FailToStart(r) => AdvanceKeys(g, r, true, Unstarted);
    case Commit(r) => AdvanceKeys(g, r, !g.all[r].phase.stopped || g.all[r].yielded, Finishing);
    case Cancel(r) => CancelFlat(g, r);
    case Send(r) => SendFlat(g, r);
    case Remove(r) => RemoveFlat(g, r);
    case StopThread(chat) => StopFlat(g, [chat], x => true);
    case StopDevice(chat) => StopFlat(g, [chat], (x: Session) => x.device);
    case StopDevices(owner, chats) => StopFlat(g, chats, (x: Session) => x.device && x.owner == owner);
    case Shutdown(chats) => ShutEachStops(g, chats); ShutEachSound(g, chats);
    case _ =>
  }

  lemma StopFlat(g: State, chats: seq<Chat>, which: Session -> bool)
    requires Inv(g)
    ensures StopEach(g, chats, which).closing == g.closing && StopEach(g, chats, which).all.Keys == g.all.Keys
  {
    StopEachFlat(g, chats, which);
    StopEachStops(g, chats, which);
  }

  /** After Stop no run starts, and the number of runs at work only falls. */
  lemma {:induction false} NothingStartsAfterShutdown(gs: seq<State>, steps: seq<Step>, i: nat, j: nat)
    requires History(gs, steps) && i <= j < |gs| && gs[i].closing
    ensures gs[j].closing && gs[j].working <= gs[i].working
    ensures gs[j].all.Keys == gs[i].all.Keys
    ensures forall r :: r in gs[i].all ==> gs[j].all[r].started == gs[i].all[r].started
    ensures forall k :: i <= k < j ==> !steps[k].Start?
  {
    hide Inv, Enabled, Next;
    if i < j {
      NothingStartsAfterShutdown(gs, steps, i, j - 1);
      HistoryInv(gs, steps, j - 1);
      ClosedStep(gs[j - 1], steps[j - 1]);
      assert !steps[j - 1].Start? by { ClosedStart(gs[j - 1], steps[j - 1]); }
    }
  }

  lemma ClosedStart(g: State, step: Step)
    requires Enabled(g, step) && g.closing
    ensures !step.Start?
  {}
}
