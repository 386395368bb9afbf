/**
 The live-run registry of internal/engine (live.go, accept.go, queue.go, start.go,
 finish.go, shutdown.go, transfer.go): which run a chat has active and which wait
 for it. Every region under the registry's lock is one step, and
 AcceptTurn, launch and finishRun are programs of several, which interleave with
 each other and with every request in any order.
 */
module Registry {
  import opened Options

  type RunRef = nat      // the identity of a Run, and of its random id
  type SessionRef = nat  // the identity of a threadSession
  type Chat = nat        // a caller's scope and a chat's id
  type Owner = nat       // a caller's scope
  type Nonce = nat       // a caller's scope and a client request's id

  const MAX_QUEUED_TURNS: nat := 32

  /** How far a turn has come. */
  datatype Phase =
    | Registered                // its request is registered, and admit has not answered
    | Refusing                  // admit refused it and its request is unregistered
    | Refused
    | Queued                    // in its chat's queue
    | Launching                 // its chat's active run, not started
    | Running                   // started
    | Ending(stopped: bool)     // finishRun has begun; stopped is whether it was cancelled by then
    | Unstarted                 // launch failed and the chat has moved on
    | Finishing                 // committed, and the chat has moved on
    | Closing                   // its terminal event is framed and its log closed
    | Ended

  datatype Run = Run(
    session: Option<SessionRef>,
    nonce: Nonce,
    phase: Phase,
    cancelled: bool,
    yielded: bool,
    owes: bool,       // AcceptTurn has yet to close accepted
    accepted: nat,    // times accepted was closed
    finished: nat,    // times Finished was closed
    terminals: nat,   // terminal events framed
    started: nat)     // RUN_STARTED events framed

  datatype Session = Session(
    chat: Chat,
    owner: Owner,
    device: bool,
    deleted: bool,
    tombstone: bool,  // stands for a chat being moved to a device
    active: Option<RunRef>,
    queue: seq<RunRef>)

  datatype State = State(
    closing: bool,
    threads: map<Chat, SessionRef>,
    sessions: map<SessionRef, Session>,
    runs: set<RunRef>,
    requests: map<Nonce, RunRef>,
    all: map<RunRef, Run>,
    working: int)

  const INIT := State(false, map[], map[], {}, map[], map[], 0)

  predicate IsActive(p: Phase) { p.Launching? || p.Running? || p.Ending? }
  predicate IsLive(p: Phase) { p.Queued? || IsActive(p) }
  predicate IsRequested(p: Phase) { p.Registered? || IsLive(p) }
  predicate IsWorking(p: Phase) { p.Running? || p.Ending? || p.Finishing? || p.Closing? }

  // ---- What the locked regions do ----

  function Members(q: seq<RunRef>): set<RunRef> {
    set i | 0 <= i < |q| :: q[i]
  }

  function Without(q: seq<RunRef>, r: RunRef): seq<RunRef> {
    if q == [] then []
    else if q[0] == r then q[1..]
    else [q[0]] + Without(q[1..], r)
  }

  /** A turn that never started, ended: its terminal event framed, its log and Finished closed. */
  function EndedRun(x: Run): Run {
    x.(phase := Ended, terminals := x.terminals + 1, finished := x.finished + 1)
  }

  /** Unregisters runs that are ending. */
  function Forget(g: State, rs: set<RunRef>): (g': State)
    ensures g' == g.(runs := g'.runs, requests := g'.requests)
  {
    g.(runs := g.runs - rs,
       requests := map n | n in g.requests && g.requests[n] !in rs :: g.requests[n])
  }

  /** endQueued of every run of a set. */
  function EndRuns(g: State, rs: set<RunRef>): State {
    Forget(g, rs).(all := map r | r in g.all :: if r in rs then EndedRun(g.all[r]) else g.all[r])
  }

  function SetRun(g: State, r: RunRef, x: Run): State {
    g.(all := g.all[r := x])
  }

  function SetSession(g: State, s: SessionRef, x: Session): State {
    g.(sessions := g.sessions[s := x])
  }

  /** Unregisters a session that holds no run at all. */
  function DropIdle(g: State, s: SessionRef): State
    requires s in g.sessions
  {
    var x := g.sessions[s];
    if x.active.Some? || x.queue != [] then g
    else if x.chat in g.threads && g.threads[x.chat] == s then g.(threads := g.threads - {x.chat})
    else g
  }

  /** Ends every turn queued in a chat. */
  function ClearQueue(g: State, s: SessionRef, x: Session): State {
    SetSession(EndRuns(g, Members(x.queue)), s, x.(queue := []))
  }

  predicate HasSession(g: State, r: RunRef) {
    r in g.all && g.all[r].session.Some? && g.all[r].session.value in g.sessions
  }

  function SessionOf(g: State, r: RunRef): SessionRef
    requires HasSession(g, r)
  {
    g.all[r].session.value
  }

  /** Gives the chat's running slot to the turn first in its queue. */
  function Promote(g: State, s: SessionRef, x: Session): State
    requires |x.queue| > 0
  {
    var next := x.queue[0];
    var g1 := SetSession(g, s, x.(active := Some(next), queue := x.queue[1..]));
    if next in g.all then SetRun(g1, next, g.all[next].(phase := Launching)) else g1
  }

  predicate GoesOn(g: State, x: Session, goOn: bool) {
    goOn && !x.deleted && !g.closing && |x.queue| > 0
  }

  /** Retires a run from its chat, and starts the queued turn next in it or ends them all. */
  function Advance(g: State, r: RunRef, goOn: bool, after: Phase): State
    requires HasSession(g, r)
  {
    var s := SessionOf(g, r);
    var g1 := SetRun(Forget(g, {r}), r, g.all[r].(phase := after));
    var x := g.sessions[s];
    var x1 := if x.active == Some(r) then x.(active := None) else x;
    DropIdle(if GoesOn(g, x1, goOn) then Promote(g1, s, x1) else ClearQueue(g1, s, x1), s)
  }

  function CancelActive(g: State, s: SessionRef): State
    requires s in g.sessions
  {
    var x := g.sessions[s];
    if x.active.Some? && x.active.value in g.all
    then SetRun(g, x.active.value, g.all[x.active.value].(cancelled := true))
    else g
  }

  /** Stops a chat being deleted. */
  function StopSession(g: State, s: SessionRef): State
    requires s in g.sessions
  {
    var x := g.sessions[s].(deleted := true);
    DropIdle(ClearQueue(CancelActive(g, s), s, x), s)
  }

  /** Ends a turn waiting in its chat's queue. */
  function RemoveQueued(g: State, r: RunRef): State
    requires HasSession(g, r)
  {
    var s := SessionOf(g, r);
    var x := g.sessions[s];
    if r !in x.queue then g
    else
      var g1 := SetSession(SetRun(g, r, g.all[r].(cancelled := true)), s, x.(queue := Without(x.queue, r)));
      DropIdle(EndRuns(g1, {r}), s)
  }

  function Cancelled(g: State, r: RunRef): State
    requires HasSession(g, r)
  {
    var x := g.sessions[SessionOf(g, r)];
    if r in x.queue then RemoveQueued(g, r)
    else if x.active != Some(r) || g.all[r].phase.Ending? then g
    else SetRun(g, r, g.all[r].(cancelled := true))
  }

  /** Moves a queued turn first and has the running reply hand the chat on. */
  function Sent(g: State, r: RunRef): State
    requires HasSession(g, r)
  {
    var s := SessionOf(g, r);
    var x := g.sessions[s];
    if r !in x.queue then g
    else
      var g1 := SetSession(g, s, x.(queue := [r] + Without(x.queue, r)));
      if x.active.Some? && x.active.value in g.all then
        var a := g.all[x.active.value];
        SetRun(g1, x.active.value, a.(yielded := true, cancelled := a.cancelled || !a.phase.Ending?))
      else g1
  }

  /** StopThread of each chat in turn that a condition selects. */
  function StopEach(g: State, chats: seq<Chat>, which: Session -> bool): State {
    if chats == [] then g
    else
      var g1 := StopEach(g, chats[..|chats| - 1], which);
      var c := chats[|chats| - 1];
      if c in g1.threads && g1.threads[c] in g1.sessions && which(g1.sessions[g1.threads[c]])
      then StopSession(g1, g1.threads[c])
      else g1
  }

  /** Tells each running reply to stop and ends what is queued, chat by chat. */
  function ShutEach(g: State, chats: seq<Chat>): State {
    if chats == [] then g.(closing := true)
    else
      var g1 := ShutEach(g, chats[..|chats| - 1]);
      var c := chats[|chats| - 1];
      if c in g1.threads && g1.threads[c] in g1.sessions then
        var s := g1.threads[c];
        ClearQueue(CancelActive(g1, s), s, g1.sessions[s])
      else g1
  }

  /** What admit's locked part asks of a turn: a chat it may join, not full, and no compaction of a running one. */
  predicate MayJoin(g: State, chat: Chat, owner: Owner, device: bool, compact: bool) {
    chat in g.threads ==>
      && g.threads[chat] in g.sessions
      && var x := g.sessions[g.threads[chat]];
         && !x.deleted && x.owner == owner && x.device == device
         && (x.active.Some? ==> !compact && |x.queue| < MAX_QUEUED_TURNS)
  }

  /** Gives a turn its chat: it is to start now, or waits in the chat's queue. */
  function Admitted(g: State, r: RunRef, chat: Chat, owner: Owner, device: bool, spare: SessionRef): State
    requires r in g.all
  {
    var known := chat in g.threads && g.threads[chat] in g.sessions;
    var s := if known then g.threads[chat] else spare;
    var x := if known then g.sessions[s] else Session(chat, owner, device, false, false, None, []);
    var g1 := g.(threads := g.threads[chat := s], runs := g.runs + {r});
    var run := g.all[r].(session := Some(s));
    if x.active.Some? then
      SetRun(SetSession(g1, s, x.(queue := x.queue + [r])), r, run.(phase := Queued, accepted := run.accepted + 1))
    else
      SetRun(SetSession(g1, s, x.(active := Some(r))), r, run.(phase := Launching, owes := true))
  }

  // ---- Steps ----

  datatype Step =
    | Register(r: RunRef, nonce: Nonce)
    | RefuseForget(r: RunRef)
    | RefuseClose(r: RunRef)
    | Admit(r: RunRef, chat: Chat, owner: Owner, device: bool, compact: bool, session: SessionRef)
    | Start(r: RunRef)
    | FailToStart(r: RunRef)
    | EndUnstarted(r: RunRef)
    | CloseAccepted(r: RunRef)
    | BeginEnding(r: RunRef)
    | Commit(r: RunRef)
    | FrameTerminal(r: RunRef)
    | CloseFinished(r: RunRef)
    | Cancel(r: RunRef)
    | Send(r: RunRef)
    | Remove(r: RunRef)
    | StopThread(chat: Chat)
    | StopDevice(chat: Chat)
    | StopDevices(owner: Owner, chats: seq<Chat>)
    | Shutdown(chats: seq<Chat>)
    | BeginTransfer(chat: Chat, owner: Owner, session: SessionRef)
    | EndTransfer(session: SessionRef)

  /** A chat with nothing running, queued or being moved, which may be moved to a device. */
  predicate MayTransfer(g: State, chat: Chat) {
    chat in g.threads && g.threads[chat] in g.sessions ==>
      var x := g.sessions[g.threads[chat]]; !x.deleted && x.active.None? && x.queue == []
  }

  /** An order the chats of the registry are visited in. */
  predicate Covers(chats: seq<Chat>, threads: map<Chat, SessionRef>) {
    (forall c | c in chats :: c in threads) && (forall c | c in threads :: c in chats)
  }

  predicate InPhase(g: State, r: RunRef, p: Phase) {
    r in g.all && g.all[r].phase == p
  }

  predicate Enabled(g: State, step: Step) {
    match step
    case Register(r, nonce) => r !in g.all && !g.closing && nonce !in g.requests
    case RefuseForget(r) => InPhase(g, r, Registered)
    case RefuseClose(r) => InPhase(g, r, Refusing)
    case Admit(r, chat, owner, device, compact, s) =>
      InPhase(g, r, Registered) && !g.closing && s !in g.sessions && MayJoin(g, chat, owner, device, compact)
    case Start(r) =>
      InPhase(g, r, Launching) && HasSession(g, r) && !g.sessions[SessionOf(g, r)].deleted && !g.closing
    case FailToStart(r) => InPhase(g, r, Launching) && HasSession(g, r)
    case EndUnstarted(r) => InPhase(g, r, Unstarted)
    case CloseAccepted(r) => r in g.all && g.all[r].owes && !g.all[r].phase.Launching? && !g.all[r].phase.Unstarted?
    case BeginEnding(r) => InPhase(g, r, Running)
    case Commit(r) => r in g.all && g.all[r].phase.Ending? && HasSession(g, r)
    case FrameTerminal(r) => InPhase(g, r, Finishing)
    case CloseFinished(r) => InPhase(g, r, Closing)
    case Cancel(r) => HasSession(g, r)
    case Send(r) => HasSession(g, r)
    case Remove(r) => HasSession(g, r)
    case StopThread(_) => true
    case StopDevice(_) => true
    case StopDevices(_, chats) => Covers(chats, g.threads)
    case Shutdown(chats) => Covers(chats, g.threads)
    case BeginTransfer(chat, _, s) => s !in g.sessions && MayTransfer(g, chat)
    case EndTransfer(s) => s in g.sessions && g.sessions[s].tombstone
  }

  /** The steps of a run that change nothing of its session. */
  predicate IsRunStep(step: Step) {
    || step.RefuseClose? || step.Start? || step.EndUnstarted? || step.CloseAccepted? || step.BeginEnding?
    || step.FrameTerminal? || step.CloseFinished?
  }

  /** A run after a step of its own: a channel closed, an event framed, finishRun begun. */
  function Stepped(x: Run, step: Step): Run
    requires IsRunStep(step)
  {
    match step
    case RefuseClose(_) => x.(phase := Refused, accepted := x.accepted + 1)
    case Start(_) => x.(phase := Running, started := x.started + 1)
    case EndUnstarted(_) => EndedRun(x)
    case CloseAccepted(_) => x.(owes := false, accepted := x.accepted + 1)
    case BeginEnding(_) => x.(phase := Ending(x.cancelled))
    case FrameTerminal(_) => x.(phase := Closing, terminals := x.terminals + 1)
    case CloseFinished(_) => x.(phase := Ended, finished := x.finished + 1)
  }

  function Next(g: State, step: Step): State
    requires Enabled(g, step)
  {
    match step
    case Register(r, nonce) =>
      SetRun(g, r, Run(None, nonce, Registered, false, false, false, 0, 0, 0, 0)).(requests := g.requests[nonce := r])
    case RefuseForget(r) => SetRun(Forget(g, {r}), r, g.all[r].(phase := Refusing))
    case RefuseClose(r) => SetRun(g, r, Stepped(g.all[r], step))
    case Admit(r, chat, owner, device, _, s) => Admitted(g, r, chat, owner, device, s)
    case Start(r) => SetRun(g, r, Stepped(g.all[r], step)).(working := g.working + 1)
    case FailToStart(r) => Advance(g, r, true, Unstarted)
    case EndUnstarted(r) => SetRun(g, r, Stepped(g.all[r], step))
    case CloseAccepted(r) => SetRun(g, r, Stepped(g.all[r], step))
    case BeginEnding(r) => SetRun(g, r, Stepped(g.all[r], step))
    case Commit(r) => Advance(g, r, !g.all[r].phase.stopped || g.all[r].yielded, Finishing)
    case FrameTerminal(r) => SetRun(g, r, Stepped(g.all[r], step))
    case CloseFinished(r) => SetRun(g, r, Stepped(g.all[r], step)).(working := g.working - 1)
    case Cancel(r) => Cancelled(g, r)
    case Send(r) => Sent(g, r)
    case Remove(r) => RemoveQueued(g, r)
    case StopThread(chat) => StopEach(g, [chat], x => true)
    case StopDevice(chat) => StopEach(g, [chat], (x: Session) => x.device)
    case StopDevices(owner, chats) => StopEach(g, chats, (x: Session) => x.device && x.owner == owner)
    case Shutdown(chats) => ShutEach(g, chats)
    case BeginTransfer(chat, owner, s) =>
      SetSession(g, s, Session(chat, owner, false, true, true, None, [])).(threads := g.threads[chat := s])
    case EndTransfer(s) => DropIdle(g, s)
  }
}
