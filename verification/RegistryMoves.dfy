/**
 What one step of the registry may do to a turn and to a chat's queue.
 */
module RegistryMoves {
  import opened Options
  import opened Registry
  import opened RegistryInvariant
  import opened RegistrySteps

  // ---- A turn's lifecycle ----

  /** The order a turn goes through its phases in. */
  predicate Precedes(p: Phase, q: Phase) {
    || q == p
    || (p.Registered? && (q.Refusing? || q.Queued? || q.Launching?))
    || (p.Refusing? && q.Refused?)
    || (p.Queued? && (q.Launching? || q.Ended?))
    || (p.Launching? && (q.Running? || q.Unstarted?))
    || (p.Running? && q.Ending?)
    || (p.Ending? && q.Finishing?)
    || (p.Finishing? && q.Closing?)
    || ((p.Unstarted? || p.Closing?) && q.Ended?)
  }

  /** A turn keeps its request and its chat, never takes back a cancel or a yield, and starts only from Launching. */
  predicate Moves(x: Run, y: Run) {
    && y.nonce == x.nonce
    && (x.session.Some? ==> y.session == x.session)
    && (x.cancelled ==> y.cancelled) && (x.yielded ==> y.yielded)
    && Precedes(x.phase, y.phase)
    && x.accepted <= y.accepted && x.finished <= y.finished && x.terminals <= y.terminals
    && x.started <= y.started
    && (x.started < y.started ==> x.phase.Launching? && y.phase.Running?)
  }

  /** All a stop or a shutdown does to a turn. */
  predicate Stops(x: Run, y: Run) {
    && (x.cancelled ==> y.cancelled)
    && (y == x.(cancelled := y.cancelled) || (x.phase.Queued? && y == EndedRun(x).(cancelled := y.cancelled)))
  }

  lemma StopsMoves(x: Run, y: Run)
    requires Stops(x, y)
    ensures Moves(x, y)
  {}

  /** Every turn is at most stopped. */
  ghost predicate AllStop(g: State, g': State) {
    g'.all.Keys == g.all.Keys && forall t :: t in g.all ==> Stops(g.all[t], g'.all[t])
  }

  lemma StopsOnce(x: Run, y: Run, z: Run)
    requires Stops(x, y) && Stops(y, z)
    ensures Stops(x, z)
  {}

  lemma AllStopOnce(g: State, g1: State, g2: State)
    requires AllStop(g, g1) && AllStop(g1, g2)
    ensures AllStop(g, g2)
  {
    hide Stops;
    forall t | t in g.all ensures Stops(g.all[t], g2.all[t]) { StopsOnce(g.all[t], g1.all[t], g2.all[t]); }
  }

  lemma CancelActiveStops(g: State, s: SessionRef)
    requires s in g.sessions
    ensures AllStop(g, CancelActive(g, s))
  {}

  lemma ClearQueueStops(g: State, s: SessionRef, x: Session)
    requires Core(g) && s in g.sessions && x.queue == g.sessions[s].queue
    ensures AllStop(g, ClearQueue(g, s, x))
  {
    hide Core, EndRuns;
    var g' := ClearQueue(g, s, x);
    EndRunsShape(g, Members(x.queue));
    MembersOf(x.queue);
    forall t | t in g.all ensures Stops(g.all[t], g'.all[t]) {
      if t in x.queue { QueuedFacts(g, s, t); }
    }
  }

  /** A chat's reply cancelled and its queue ended. */
  lemma ClearStops(g: State, s: SessionRef, x: Session)
    requires Sound(g) && s in g.sessions && x.queue == g.sessions[s].queue
    ensures AllStop(g, ClearQueue(CancelActive(g, s), s, x))
  {
    hide Core, Workers, CancelActive, ClearQueue, AllStop;
    CancelActiveSound(g, s);
    CancelActiveStops(g, s);
    ClearQueueStops(CancelActive(g, s), s, x);
    AllStopOnce(g, CancelActive(g, s), ClearQueue(CancelActive(g, s), s, x));
  }

  lemma StopSessionStops(g: State, s: SessionRef)
    requires Sound(g) && s in g.sessions
    ensures AllStop(g, StopSession(g, s))
  {
    hide Sound, CancelActive, EndRuns, DropIdle, Stops;
    var x := g.sessions[s].(deleted := true);
    ClearStops(g, s, x);
    DropIdleShape(ClearQueue(CancelActive(g, s), s, x), s);
  }

  lemma {:induction false} StopEachStops(g: State, chats: seq<Chat>, which: Session -> bool)
    requires Inv(g)
    ensures AllStop(g, StopEach(g, chats, which))
  {
    hide Sound, Quiet, StopSession, Stops;
    if chats == [] {
      NoneStop(g);
    } else {
      var g1, c := StopEach(g, chats[..|chats| - 1], which), chats[|chats| - 1];
      StopEachStops(g, chats[..|chats| - 1], which);
      StopEachInv(g, chats[..|chats| - 1], which);
      if c in g1.threads && g1.threads[c] in g1.sessions && which(g1.sessions[g1.threads[c]]) {
        StopSessionStops(g1, g1.threads[c]);
        AllStopOnce(g, g1, StopSession(g1, g1.threads[c]));
      }
    }
  }

  lemma NoneStop(g: State)
    ensures AllStop(g, g) && AllStop(g, g.(closing := true))
  {}

  lemma {:induction false} ShutEachStops(g: State, chats: seq<Chat>)
    requires Sound(g)
    ensures AllStop(g, ShutEach(g, chats))
  {
    hide Sound, CancelActive, ClearQueue, AllStop;
    if chats == [] {
      NoneStop(g);
    } else {
      var g1, c := ShutEach(g, chats[..|chats| - 1]), chats[|chats| - 1];
      ShutEachStops(g, chats[..|chats| - 1]);
      ShutEachSound(g, chats[..|chats| - 1]);
      if c in g1.threads && g1.threads[c] in g1.sessions {
        var s := g1.threads[c];
        ClearStops(g1, s, g1.sessions[s]);
        AllStopOnce(g, g1, ClearQueue(CancelActive(g1, s), s, g1.sessions[s]));
      }
    }
  }

  /** Every turn a step leaves is where its lifecycle allows. */
  ghost predicate AllMove(g: State, g': State) {
    g.all.Keys <= g'.all.Keys && forall t :: t in g.all ==> Moves(g.all[t], g'.all[t])
  }

  lemma StopsAllMove(g: State, g': State)
    requires AllStop(g, g')
    ensures AllMove(g, g')
  {
    hide Stops, Moves;
    forall t | t in g.all ensures Moves(g.all[t], g'.all[t]) { StopsMoves(g.all[t], g'.all[t]); }
  }

  /** One turn moves and no other changes. */
  lemma OneMoves(g: State, g': State, r: RunRef)
    requires r in g'.all && g'.all == g.all[r := g'.all[r]] && (r in g.all ==> Moves(g.all[r], g'.all[r]))
    ensures AllMove(g, g')
  {
  }

  lemma AdvanceMoves(g: State, r: RunRef, goOn: bool, after: Phase)
    requires Core(g) && HasSession(g, r) && IsActive(g.all[r].phase) && Precedes(g.all[r].phase, after)
    ensures AllMove(g, Advance(g, r, goOn, after))
  {
    hide Core, Advance, Shape, Promoted, AllMove, Moves, Precedes;
    var s, g' := SessionOf(g, r), Advance(g, r, goOn, after);
    AdvanceFacts(g, r);
    var q := g.sessions[s].queue;
    forall t | t in q ensures t in g.all && g.all[t].phase.Queued? { QueuedFacts(g, s, t); }
    if GoesOn(g, g.sessions[s], goOn) {
      PromotedShape(g, r, goOn, after);
      PromotedMoves(g, g', r, after);
    } else {
      AdvanceClearsShape(g, r, goOn, after);
      ClearsMoves(g, g', r, after);
    }
  }

  lemma PromotedMoves(g: State, g': State, r: RunRef, after: Phase)
    requires HasSession(g, r) && |g.sessions[SessionOf(g, r)].queue| > 0 && Promoted(g, g', r, after)
    requires Precedes(g.all[r].phase, after) && g.all[g.sessions[SessionOf(g, r)].queue[0]].phase.Queued?
    ensures AllMove(g, g')
  {
    hide Forget;
  }

  lemma ClearsMoves(g: State, g': State, r: RunRef, after: Phase)
    requires HasSession(g, r)
    requires var s := SessionOf(g, r);
             Shape(g, g', s, g.sessions[s].(active := None, queue := []), {r} + Members(g.sessions[s].queue))
    requires Precedes(g.all[r].phase, after) && g'.all[r] == g.all[r].(phase := after)
    requires forall t :: t in g.sessions[SessionOf(g, r)].queue ==>
               t in g.all && g.all[t].phase.Queued? && (t != r ==> g'.all[t] == EndedRun(g.all[t]))
    ensures AllMove(g, g')
  {
    hide Forget, IdleThreads;
    MembersOf(g.sessions[SessionOf(g, r)].queue);
  }

  lemma RemoveMoves(g: State, r: RunRef)
    requires Core(g) && HasSession(g, r)
    ensures AllMove(g, RemoveQueued(g, r))
  {
    hide Core, IdleThreads, Forget, RemoveQueued;
    var s := SessionOf(g, r);
    if r in g.sessions[s].queue {
      RemoveQueuedShape(g, r);
      QueuedFacts(g, s, r);
    } else {
      assert RemoveQueued(g, r) == g by { RemoveNothing(g, r); }
    }
  }

  lemma RemoveNothing(g: State, r: RunRef)
    requires HasSession(g, r) && r !in g.sessions[SessionOf(g, r)].queue
    ensures RemoveQueued(g, r) == g
  {}

  lemma CancelMoves(g: State, r: RunRef)
    requires Core(g) && HasSession(g, r)
    ensures AllMove(g, Cancelled(g, r))
  {
    hide Core, RemoveQueued;
    if r in g.sessions[SessionOf(g, r)].queue { RemoveMoves(g, r); }
  }

  lemma AdmitMoves(g: State, r: RunRef, chat: Chat, owner: Owner, device: bool, compact: bool, s: SessionRef)
    requires Core(g) && Enabled(g, Admit(r, chat, owner, device, compact, s))
    ensures AllMove(g, Admitted(g, r, chat, owner, device, s))
  {
    hide Core, MayJoin;
    AdmitFacts(g, r, chat, owner, device, compact, s);
    OneMoves(g, Admitted(g, r, chat, owner, device, s), r);
  }

  lemma RunStepMoves(g: State, step: Step)
    requires Inv(g) && Enabled(g, step) && IsRunStep(step)
    ensures AllMove(g, Next(g, step))
  {
    hide Inv, OneRun, AllMove, Forget, Admitted, Advance, Cancelled, Sent, RemoveQueued, StopEach, ShutEach, DropIdle, MayJoin, MayTransfer;
    OneMoves(g, Next(g, step), step.r);
  }

  lemma StepMoves(g: State, step: Step)
    requires Inv(g) && Enabled(g, step)
    ensures AllMove(g, Next(g, step))
  {
    hide Core, Quiet, Workers, AllMove, Moves, Stops, Advance, Admitted, Cancelled, Sent, RemoveQueued, StopEach, ShutEach, DropIdle, MayJoin, MayTransfer, Forget;
    match step
    case Register(r, nonce) => OneMoves(g, Next(g, step), r);
    case RefuseForget(r) => RefuseForgetMoves(g, r);
    case Admit(r, chat, owner, device, compact, s) => AdmitMoves(g, r, chat, owner, device, compact, s);
    case FailToStart(r) => AdvanceMoves(g, r, true, Unstarted);
    case Commit(r) => AdvanceMoves(g, r, !g.all[r].phase.stopped || g.all[r].yielded, Finishing);
    case Cancel(r) => CancelMoves(g, r);
    case Send(r) => SendMoves(g, r);
    case Remove(r) => RemoveMoves(g, r);
    case StopThread(chat) => StopEachStops(g, [chat], x => true); StopsAllMove(g, Next(g, step));
    case StopDevice(chat) => StopEachStops(g, [chat], (x: Session) => x.device); StopsAllMove(g, Next(g, step));
    case StopDevices(owner, chats) =>
      StopEachStops(g, chats, (x: Session) => x.device && x.owner == owner); StopsAllMove(g, Next(g, step));
    case Shutdown(chats) => ShutEachStops(g, chats); StopsAllMove(g, Next(g, step));
    case BeginTransfer(chat, owner, s) => TransferMoves(g, step);
    case EndTransfer(s) => TransferMoves(g, step);
    case _ => RunStepMoves(g, step);
  }

  lemma RefuseForgetMoves(g: State, r: RunRef)
    requires InPhase(g, r, Registered)
    ensures AllMove(g, Next(g, RefuseForget(r)))
  {
    hide Forget;
    OneMoves(g, Next(g, RefuseForget(r)), r);
  }

  lemma SendMoves(g: State, r: RunRef)
    requires HasSession(g, r)
    ensures AllMove(g, Sent(g, r))
  {}

  lemma TransferMoves(g: State, step: Step)
    requires (step.BeginTransfer? || step.EndTransfer?) && Enabled(g, step)
    ensures AllMove(g, Next(g, step))
  {
    assert Next(g, step).all == g.all;
  }

  // ---- A chat's queue ----

  predicate IsStop(step: Step) {
    step.StopThread? || step.StopDevice? || step.StopDevices? || step.Shutdown?
  }

  predicate IsAdvance(step: Step) { step.Commit? || step.FailToStart? }

  /** A session stays its caller's and its chat's, and is deleted, for good, by a stop alone. */
  predicate SameChat(x: Session, y: Session) {
    y.chat == x.chat && y.owner == x.owner && y.device == x.device && y.tombstone == x.tombstone && (x.deleted ==> y.deleted)
  }

  ghost predicate SessionMoves(x: Session, y: Session, step: Step) {
    SameChat(x, y) && (y.deleted ==> x.deleted || IsStop(step)) && QueueMoves(x, y, step)
  }

  /** A chat's slot and queue before and after a step. */
  ghost predicate QueueMoves(x: Session, y: Session, step: Step) {
    || (y.active == x.active && y.queue == x.queue)
    || (step.Admit? && x.active.Some? && y.active == x.active && y.queue == x.queue + [step.r])
    || (IsAdvance(step) && x.active == Some(step.r) && |x.queue| > 0 && y.active == Some(x.queue[0]) && y.queue == x.queue[1..])
    || (IsAdvance(step) && x.active == Some(step.r) && y.active.None? && y.queue == [])
    || (IsStop(step) && y.active == x.active && y.queue == [])
    || ((step.Remove? || step.Cancel?) && step.r in x.queue && y.active == x.active && y.queue == Without(x.queue, step.r))
    || (step.Send? && step.r in x.queue && y.active == x.active && y.queue == [step.r] + Without(x.queue, step.r))
  }

  /** A new session is opened by the turn admitted to it, or stands for a chat being moved. */
  predicate Opens(y: Session, step: Step) {
    y.queue == [] && ((step.Admit? && y.active == Some(step.r)) || (step.BeginTransfer? && y.active.None?))
  }

  ghost predicate QueuesMove(g: State, g': State, step: Step) {
    && g.sessions.Keys <= g'.sessions.Keys
    && (forall s :: s in g.sessions ==> SessionMoves(g.sessions[s], g'.sessions[s], step))
    && (forall s :: s in g'.sessions && s !in g.sessions ==> Opens(g'.sessions[s], step))
  }

  /** All a stop or a shutdown does to a chat's slot and queue. */
  predicate Empties(x: Session, y: Session) {
    SameChat(x, y) && y.active == x.active && (y.queue == x.queue || y.queue == [])
  }

  lemma StopSessionEmpties(g: State, s: SessionRef)
    requires s in g.sessions
    ensures StopSession(g, s).sessions.Keys == g.sessions.Keys
    ensures forall t :: t in g.sessions ==> Empties(g.sessions[t], StopSession(g, s).sessions[t])
  {
    hide CancelActive, DropIdle, EndRuns;
    var g1, x := CancelActive(g, s), g.sessions[s].(deleted := true);
    assert g1.sessions == g.sessions by { CancelActiveShape(g, s); }
    EndRunsShape(g1, Members(x.queue));
    DropIdleShape(ClearQueue(g1, s, x), s);
  }

  lemma CancelActiveShape(g: State, s: SessionRef)
    requires s in g.sessions
    ensures CancelActive(g, s) == g.(all := CancelActive(g, s).all)
  {}

  lemma {:induction false} StopEachEmpties(g: State, chats: seq<Chat>, which: Session -> bool)
    ensures StopEach(g, chats, which).sessions.Keys == g.sessions.Keys
    ensures forall t :: t in g.sessions ==> Empties(g.sessions[t], StopEach(g, chats, which).sessions[t])
  {
    hide StopSession;
    if chats != [] {
      var g1, c := StopEach(g, chats[..|chats| - 1], which), chats[|chats| - 1];
      StopEachEmpties(g, chats[..|chats| - 1], which);
      if c in g1.threads && g1.threads[c] in g1.sessions && which(g1.sessions[g1.threads[c]]) {
        StopSessionEmpties(g1, g1.threads[c]);
      }
    }
  }

  lemma {:induction false} ShutEachEmpties(g: State, chats: seq<Chat>)
    ensures ShutEach(g, chats).sessions.Keys == g.sessions.Keys
    ensures forall t :: t in g.sessions ==> Empties(g.sessions[t], ShutEach(g, chats).sessions[t])
  {
    hide CancelActive, EndRuns;
    if chats != [] {
      var g1, c := ShutEach(g, chats[..|chats| - 1]), chats[|chats| - 1];
      ShutEachEmpties(g, chats[..|chats| - 1]);
      if c in g1.threads && g1.threads[c] in g1.sessions {
        var s := g1.threads[c];
        CancelActiveShape(g1, s);
        EndRunsShape(CancelActive(g1, s), Members(g1.sessions[s].queue));
      }
    }
  }

  lemma EmptiesQueuesMove(g: State, g': State, step: Step)
    requires g'.sessions.Keys == g.sessions.Keys && forall t :: t in g.sessions ==> Empties(g.sessions[t], g'.sessions[t])
    requires IsStop(step)
    ensures QueuesMove(g, g', step)
  {}

  lemma OneQueueMoves(g: State, g': State, s: SessionRef, step: Step)
    requires s in g'.sessions && g'.sessions == g.sessions[s := g'.sessions[s]]
    requires if s in g.sessions then SessionMoves(g.sessions[s], g'.sessions[s], step) else Opens(g'.sessions[s], step)
    ensures QueuesMove(g, g', step)
  {}

  lemma SameQueuesMove(g: State, g': State, step: Step)
    requires g'.sessions == g.sessions
    ensures QueuesMove(g, g', step)
  {}

  lemma AdvanceQueues(g: State, r: RunRef, goOn: bool, after: Phase, step: Step)
    requires Core(g) && HasSession(g, r) && IsActive(g.all[r].phase) && IsAdvance(step) && step.r == r
    ensures QueuesMove(g, Advance(g, r, goOn, after), step)
  {
    hide Core, Advance, IdleThreads, Forget, QueuesMove;
    var s, g' := SessionOf(g, r), Advance(g, r, goOn, after);
    AdvanceFacts(g, r);
    if GoesOn(g, g.sessions[s], goOn) {
      QueuedFacts(g, s, g.sessions[s].queue[0]);
      PromotedShape(g, r, goOn, after);
    } else {
      AdvanceClearsShape(g, r, goOn, after);
    }
    OneQueueMoves(g, g', s, step);
  }

  lemma RemoveQueues(g: State, r: RunRef, step: Step)
    requires HasSession(g, r) && (step.Remove? || step.Cancel?) && step.r == r
    ensures QueuesMove(g, RemoveQueued(g, r), step)
  {
    hide IdleThreads, Forget, RemoveQueued, QueuesMove, Without;
    var s := SessionOf(g, r);
    if r in g.sessions[s].queue {
      RemoveQueuedShape(g, r);
      OneQueueMoves(g, RemoveQueued(g, r), s, step);
    } else {
      RemoveNothing(g, r);
      SameQueuesMove(g, g, step);
    }
  }

  lemma CancelQueues(g: State, r: RunRef, step: Step)
    requires HasSession(g, r) && step == Cancel(r)
    ensures QueuesMove(g, Cancelled(g, r), step)
  {
    hide RemoveQueued, QueuesMove;
    if r in g.sessions[SessionOf(g, r)].queue {
      RemoveQueues(g, r, step);
    } else {
      SameQueuesMove(g, Cancelled(g, r), step);
    }
  }

  lemma SendQueues(g: State, r: RunRef, step: Step)
    requires HasSession(g, r) && step == Send(r)
    ensures QueuesMove(g, Sent(g, r), step)
  {
    hide QueuesMove, Without;
    if r in g.sessions[SessionOf(g, r)].queue {
      OneQueueMoves(g, Sent(g, r), SessionOf(g, r), step);
    } else {
      SameQueuesMove(g, g, step);
    }
  }

  lemma AdmitQueues(g: State, step: Step)
    requires Core(g) && step.Admit? && Enabled(g, step)
    ensures QueuesMove(g, Admitted(g, step.r, step.chat, step.owner, step.device, step.session), step)
  {
    hide Core, MayJoin, QueuesMove;
    AdmitFacts(g, step.r, step.chat, step.owner, step.device, step.compact, step.session);
    var s := if step.chat in g.threads then g.threads[step.chat] else step.session;
    OneQueueMoves(g, Admitted(g, step.r, step.chat, step.owner, step.device, step.session), s, step);
  }

  lemma TransferQueues(g: State, step: Step)
    requires (step.BeginTransfer? || step.EndTransfer?) && Enabled(g, step)
    ensures QueuesMove(g, Next(g, step), step)
  {
    hide MayTransfer;
    if step.BeginTransfer? { OneQueueMoves(g, Next(g, step), step.session, step); }
  }

  lemma RunStepQueues(g: State, step: Step)
    requires Enabled(g, step) && (IsRunStep(step) || step.Register? || step.RefuseForget?)
    ensures QueuesMove(g, Next(g, step), step)
  {
    hide QueuesMove, Admitted, Advance, Cancelled, Sent, RemoveQueued, StopEach, ShutEach, DropIdle, MayJoin, MayTransfer;
    SameQueuesMove(g, Next(g, step), step);
  }

  lemma StepQueues(g: State, step: Step)
    requires Inv(g) && Enabled(g, step)
    ensures QueuesMove(g, Next(g, step), step)
  {
    hide Core, Quiet, Workers, QueuesMove, Empties, Advance, Admitted, Cancelled, Sent, RemoveQueued, StopEach, ShutEach, DropIdle, MayJoin, MayTransfer, Forget;
    match step
    case Admit(r, chat, owner, device, compact, s) => AdmitQueues(g, step);
    case FailToStart(r) => AdvanceQueues(g, r, true, Unstarted, step);
    case Commit(r) => AdvanceQueues(g, r, !g.all[r].phase.stopped || g.all[r].yielded, Finishing, step);
    case Cancel(r) => CancelQueues(g, r, step);
    case Send(r) => SendQueues(g, r, step);
    case Remove(r) => RemoveQueues(g, r, step);
    case StopThread(chat) => StopEachEmpties(g, [chat], x => true); EmptiesQueuesMove(g, Next(g, step), step);
    case StopDevice(chat) => StopEachEmpties(g, [chat], (x: Session) => x.device); EmptiesQueuesMove(g, Next(g, step), step);
    case StopDevices(owner, chats) =>
      StopEachEmpties(g, chats, (x: Session) => x.device && x.owner == owner); EmptiesQueuesMove(g, Next(g, step), step);
    case Shutdown(chats) => ShutEachEmpties(g, chats); EmptiesQueuesMove(g, Next(g, step), step);
    case BeginTransfer(chat, owner, s) => TransferQueues(g, step);
    case EndTransfer(s) => TransferQueues(g, step);
    case _ => RunStepQueues(g, step);
  }
}
