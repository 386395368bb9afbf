/**
 Which chats a stop reaches. Stopping one chat, one device chat, every device chat
 of a caller, or the whole service does to the chats it is for all that a stop does,
 and to the others nothing.
 */
module RegistryStops {
  import opened Options
  import opened Registry
  import opened RegistryInvariant
  import opened RegistrySteps
  import opened RegistryMoves
  import opened RegistryRuns

  predicate IsRegistered(g: State, s: SessionRef) {
    s in g.sessions && g.sessions[s].chat in g.threads && g.threads[g.sessions[s].chat] == s
  }

  ghost predicate QueuedIn(g: State, sel: set<SessionRef>, r: RunRef) {
    exists s :: s in sel && s in g.sessions && r in g.sessions[s].queue
  }

  ghost predicate ActiveIn(g: State, sel: set<SessionRef>, r: RunRef) {
    exists s :: s in sel && s in g.sessions && g.sessions[s].active == Some(r)
  }

  /** What a stop makes of a turn: one waiting in a stopped chat is ended, one running in it told to stop. */
  ghost function StoppedRun(g: State, sel: set<SessionRef>, r: RunRef): Run
    requires r in g.all
  {
    if QueuedIn(g, sel, r) then EndedRun(g.all[r])
    else if ActiveIn(g, sel, r) then g.all[r].(cancelled := true)
    else g.all[r]
  }

  /** Of all the turns there are, those waiting in the selected chats are ended, and those running in them told to stop. */
  ghost predicate Halts(g: State, g': State, sel: set<SessionRef>) {
    && g'.working == g.working && g'.all.Keys == g.all.Keys && g'.sessions.Keys == g.sessions.Keys
    && (forall r :: r in g.all ==> g'.all[r] == StoppedRun(g, sel, r))
    && (forall r :: r in g'.runs <==> r in g.runs && !QueuedIn(g, sel, r))
    && (forall n :: n in g'.requests <==> n in g.requests && !QueuedIn(g, sel, g.requests[n]))
    && (forall n :: n in g'.requests ==> g'.requests[n] == g.requests[n])
  }

  /** The selected chats are stopped: deleted, emptied, and unregistered unless a reply still runs. Nothing else changes. */
  ghost predicate StopsJust(g: State, g': State, sel: set<SessionRef>) {
    && Halts(g, g', sel) && g'.closing == g.closing
    && (forall s :: s in g.sessions ==>
          g'.sessions[s] == if s in sel then g.sessions[s].(deleted := true, queue := []) else g.sessions[s])
    && (forall c :: c in g'.threads <==> c in g.threads && !Idled(g, sel, g.threads[c]))
    && (forall c :: c in g'.threads ==> g'.threads[c] == g.threads[c])
  }

  /** The selected chats' turns are halted and the service is closing; every chat stays registered. */
  ghost predicate ShutsJust(g: State, g': State, sel: set<SessionRef>) {
    && Halts(g, g', sel) && g'.closing && g'.threads == g.threads
    && (forall s :: s in g.sessions ==> g'.sessions[s] == if s in sel then g.sessions[s].(queue := []) else g.sessions[s])
  }

  /** A selected chat in which no reply runs. */
  predicate Idled(g: State, sel: set<SessionRef>, s: SessionRef) {
    s in sel && s in g.sessions && g.sessions[s].active.None?
  }

  // ---- One chat ----

  /** A run is held by one session at most, and in one place. */
  lemma HeldOnce(g: State, s: SessionRef, r: RunRef)
    requires Core(g) && s in g.sessions && (g.sessions[s].active == Some(r) || r in g.sessions[s].queue)
    ensures r in g.all && g.all[r].session == Some(s)
    ensures !(g.sessions[s].active == Some(r) && r in g.sessions[s].queue)
  {
    hide Runs, Requests, Threads;
    assert SessionOk(g, s);
  }

  lemma HaltsOne(g: State, s: SessionRef, x: Session)
    requires Sound(g) && s in g.sessions && x.queue == g.sessions[s].queue
    ensures Halts(g, ClearQueue(CancelActive(g, s), s, x), {s})
  {
    hide Core, CancelActive, EndRuns, Forget, Workers;
    var g1 := CancelActive(g, s);
    var g' := ClearQueue(g1, s, x);
    CancelOne(g, s);
    EndRunsShape(g1, Members(x.queue));
    MembersOf(x.queue);
    ForgetRequests(g1, g', Members(x.queue));
    forall r | r in g.all ensures g'.all[r] == StoppedRun(g, {s}, r) {
      assert QueuedIn(g, {s}, r) <==> r in x.queue;
      assert ActiveIn(g, {s}, r) <==> g.sessions[s].active == Some(r);
      if r in x.queue { HeldOnce(g, s, r); }
    }
    assert forall r :: QueuedIn(g, {s}, r) <==> r in x.queue;
  }

  lemma CancelOne(g: State, s: SessionRef)
    requires s in g.sessions
    ensures var g1 := CancelActive(g, s);
            && g1 == g.(all := g1.all) && g1.all.Keys == g.all.Keys
            && forall r :: r in g.all ==> g1.all[r] == if g.sessions[s].active == Some(r) then g.all[r].(cancelled := true) else g.all[r]
  {}

  lemma StopIsJust(g: State, s: SessionRef)
    requires Sound(g) && IsRegistered(g, s)
    ensures StopsJust(g, StopSession(g, s), {s})
  {
    hide Core, Workers, CancelActive, EndRuns, Halts, DropIdle;
    var x, g1 := g.sessions[s].(deleted := true), CancelActive(g, s);
    var g2 := ClearQueue(g1, s, x);
    CancelOne(g, s);
    EndRunsShape(g1, Members(x.queue));
    HaltsOne(g, s, x);
    DropIdleShape(g2, s);
    HaltsBut(g, g2, StopSession(g, s), {s});
    OwnChat(g, s);
  }

  lemma OwnChat(g: State, s: SessionRef)
    requires Core(g) && IsRegistered(g, s)
    ensures forall c :: c in g.threads && g.threads[c] == s ==> c == g.sessions[s].chat
  {
    hide Sessions, Runs, Requests;
    forall c | c in g.threads && g.threads[c] == s ensures c == g.sessions[s].chat { assert ThreadOk(g, c); }
  }

  lemma HaltsBut(g: State, g1: State, g2: State, sel: set<SessionRef>)
    requires Halts(g, g1, sel) && g2 == g1.(threads := g2.threads)
    ensures Halts(g, g2, sel)
  {}

  lemma ShutIsJust(g: State, s: SessionRef)
    requires Sound(g) && s in g.sessions && g.closing
    ensures ShutsJust(g, ClearQueue(CancelActive(g, s), s, g.sessions[s]), {s})
  {
    hide Core, Workers, CancelActive, EndRuns, Halts;
    var g1 := CancelActive(g, s);
    CancelOne(g, s);
    EndRunsShape(g1, Members(g.sessions[s].queue));
    HaltsOne(g, s, g.sessions[s]);
  }

  // ---- One chat after others ----

  lemma HaltsMore(g: State, g1: State, g2: State, sel: set<SessionRef>, s: SessionRef)
    requires Core(g) && Halts(g, g1, sel) && Halts(g1, g2, {s}) && s !in sel && s in g.sessions
    requires g1.sessions[s] == g.sessions[s]
    ensures Halts(g, g2, sel + {s})
  {
    hide Core;
    var both := sel + {s};
    forall r ensures QueuedIn(g, both, r) <==> QueuedIn(g, sel, r) || QueuedIn(g1, {s}, r) { QueuedMore(g, g1, sel, s, r); }
    forall r | r in g.all ensures g2.all[r] == StoppedRun(g, both, r) { RunMore(g, g1, g2, sel, s, r); }
  }

  lemma QueuedMore(g: State, g1: State, sel: set<SessionRef>, s: SessionRef, r: RunRef)
    requires s in g.sessions && s in g1.sessions && g1.sessions[s] == g.sessions[s]
    ensures QueuedIn(g, sel + {s}, r) <==> QueuedIn(g, sel, r) || QueuedIn(g1, {s}, r)
    ensures ActiveIn(g, sel + {s}, r) <==> ActiveIn(g, sel, r) || ActiveIn(g1, {s}, r)
  {
    if QueuedIn(g1, {s}, r) { assert s in sel + {s} && r in g.sessions[s].queue; }
    if ActiveIn(g1, {s}, r) { assert s in sel + {s} && g.sessions[s].active == Some(r); }
    if QueuedIn(g, sel + {s}, r) {
      var t :| t in sel + {s} && t in g.sessions && r in g.sessions[t].queue;
      if t == s { assert s in {s} && r in g1.sessions[s].queue; }
    }
    if ActiveIn(g, sel + {s}, r) {
      var t :| t in sel + {s} && t in g.sessions && g.sessions[t].active == Some(r);
      if t == s { assert s in {s} && g1.sessions[s].active == Some(r); }
    }
    if QueuedIn(g, sel, r) {
      var t :| t in sel && t in g.sessions && r in g.sessions[t].queue;
      assert t in sel + {s};
    }
    if ActiveIn(g, sel, r) {
      var t :| t in sel && t in g.sessions && g.sessions[t].active == Some(r);
      assert t in sel + {s};
    }
  }

  lemma RunMore(g: State, g1: State, g2: State, sel: set<SessionRef>, s: SessionRef, r: RunRef)
    requires Core(g) && s !in sel && s in g.sessions && s in g1.sessions && g1.sessions[s] == g.sessions[s]
    requires r in g.all && r in g1.all && r in g2.all
    requires g1.all[r] == StoppedRun(g, sel, r) && g2.all[r] == StoppedRun(g1, {s}, r)
    ensures g2.all[r] == StoppedRun(g, sel + {s}, r)
  {
    hide Core;
    QueuedMore(g, g1, sel, s, r);
    if QueuedIn(g1, {s}, r) || ActiveIn(g1, {s}, r) {
      HeldOnce(g, s, r);
      forall t | t in sel && t in g.sessions ensures r !in g.sessions[t].queue && g.sessions[t].active != Some(r) {
        if r in g.sessions[t].queue || g.sessions[t].active == Some(r) { HeldOnce(g, t, r); }
      }
    }
  }

  lemma StopsMore(g: State, g1: State, g2: State, sel: set<SessionRef>, s: SessionRef)
    requires Core(g) && StopsJust(g, g1, sel) && StopsJust(g1, g2, {s}) && s !in sel && s in g.sessions
    ensures StopsJust(g, g2, sel + {s})
  {
    hide Core;
    var both := sel + {s};
    assert Halts(g, g2, both) by { hide StoppedRun, QueuedIn; HaltsMore(g, g1, g2, sel, s); }
    hide Halts;
    assert g1.sessions.Keys == g.sessions.Keys by { SameKeys(g, g1, sel); }
    assert forall c :: c in g2.threads <==> c in g.threads && !Idled(g, both, g.threads[c]);
  }

  lemma SameKeys(g: State, g': State, sel: set<SessionRef>)
    requires Halts(g, g', sel)
    ensures g'.sessions.Keys == g.sessions.Keys && g'.all.Keys == g.all.Keys
  {}

  lemma ShutsMore(g: State, g1: State, g2: State, sel: set<SessionRef>, s: SessionRef)
    requires Core(g) && ShutsJust(g, g1, sel) && ShutsJust(g1, g2, {s}) && s !in sel && s in g.sessions
    ensures ShutsJust(g, g2, sel + {s})
  {
    hide Core, StoppedRun, QueuedIn;
    HaltsMore(g, g1, g2, sel, s);
  }

  /** A chat already stopped, its reply still running, is none the worse for another stop. */
  lemma StopTwice(g: State, g1: State, sel: set<SessionRef>, s: SessionRef)
    requires Core(g) && StopsJust(g, g1, sel) && s in sel && s in g.sessions && IsRegistered(g1, s) && IsRegistered(g, s)
    ensures StopSession(g1, s) == g1
  {
    hide Sessions, Requests, Runs, EndRuns, Forget, Halts;
    var x := g1.sessions[s];
    assert x.active.Some?;
    assert x.active.value in g1.all && g1.all[x.active.value].cancelled by { StoppedActive(g, g1, sel, s); }
    NothingLeft(g1, s);
  }

  lemma NothingLeft(g: State, s: SessionRef)
    requires s in g.sessions && g.sessions[s].queue == [] && g.sessions[s].active.Some?
    requires g.sessions[s].active.value in g.all && g.all[g.sessions[s].active.value].cancelled
    ensures CancelActive(g, s) == g && ClearQueue(g, s, g.sessions[s]) == g
  {
    var a := g.sessions[s].active.value;
    assert g.all[a := g.all[a].(cancelled := true)] == g.all;
    assert Members([]) == {};
    EndNone(g);
    assert g.sessions[s := g.sessions[s].(queue := [])] == g.sessions;
  }

  lemma StoppedActive(g: State, g1: State, sel: set<SessionRef>, s: SessionRef)
    requires Core(g) && Halts(g, g1, sel) && s in sel && s in g.sessions && g.sessions[s].active.Some?
    ensures g.sessions[s].active.value in g.all && g.sessions[s].active.value in g1.all
    ensures g1.all[g.sessions[s].active.value] == g.all[g.sessions[s].active.value].(cancelled := true)
  {
    hide Core;
    var a := g.sessions[s].active.value;
    HeldOnce(g, s, a);
    if QueuedIn(g, sel, a) {
      var t :| t in sel && t in g.sessions && a in g.sessions[t].queue;
      HeldOnce(g, t, a);
    }
    assert ActiveIn(g, sel, a);
  }

  // ---- Any number of chats ----

  /** Being stopped does not change whether a chat is of the kind to stop. */
  ghost predicate Steady(which: Session -> bool) {
    forall x: Session :: which(x) == which(x.(deleted := true, queue := []))
  }

  ghost function Chosen(g: State, chats: seq<Chat>, which: Session -> bool): set<SessionRef> {
    set s | s in g.sessions && IsRegistered(g, s) && g.sessions[s].chat in chats && which(g.sessions[s])
  }

  /** A stop of the chats a condition selects stops those and no other. */
  lemma {:induction false} StopEachSelects(g: State, chats: seq<Chat>, which: Session -> bool)
    requires Inv(g) && Steady(which)
    ensures StopsJust(g, StopEach(g, chats, which), Chosen(g, chats, which))
  {
    hide Sound, Quiet, StopSession, StopsJust, Steady, Chosen;
    if chats == [] {
      NoneStopped(g, which);
    } else {
      var n := |chats| - 1;
      StopEachSelects(g, chats[..n], which);
      StopEachInv(g, chats[..n], which);
      SelectsMore(g, chats, which, StopEach(g, chats[..n], which));
    }
  }

  lemma NoneStopped(g: State, which: Session -> bool)
    ensures StopsJust(g, g, Chosen(g, [], which)) && ShutsJust(g, g.(closing := true), Chosen(g, [], which))
  {
    assert Chosen(g, [], which) == {};
    assert forall r :: !QueuedIn(g, {}, r) && !ActiveIn(g, {}, r);
  }

  lemma SelectsMore(g: State, chats: seq<Chat>, which: Session -> bool, g1: State)
    requires Inv(g) && Inv(g1) && Steady(which) && |chats| > 0 && StopsJust(g, g1, Chosen(g, chats[..|chats| - 1], which))
    ensures var c := chats[|chats| - 1];
            var stop := c in g1.threads && g1.threads[c] in g1.sessions && which(g1.sessions[g1.threads[c]]);
            StopsJust(g, if stop then StopSession(g1, g1.threads[c]) else g1, Chosen(g, chats, which))
  {
    hide Core, Quiet, Workers, StopSession, StopsJust, Steady, Chosen;
    var n, c := |chats| - 1, chats[|chats| - 1];
    var sel := Chosen(g, chats[..n], which);
    ChosenMore(g, chats, which);
    ChosenAre(g, chats[..n], which);
    StillThere(g, g1, sel, which, c);
    if c !in g1.threads {
      if c in g.threads { assert sel + {g.threads[c]} == sel; }
    } else if which(g1.sessions[g1.threads[c]]) {
      var s := g1.threads[c];
      if s in sel {
        StopTwice(g, g1, sel, s);
        assert sel + {s} == sel;
      } else {
        StopIsJust(g1, s);
        StopsMore(g, g1, StopSession(g1, s), sel, s);
      }
    }
  }

  lemma ChosenAre(g: State, chats: seq<Chat>, which: Session -> bool)
    ensures forall s :: s in Chosen(g, chats, which) ==> s in g.sessions && which(g.sessions[s])
  {}

  /** The last chat of a longer list selects its own session, or none. */
  lemma ChosenMore(g: State, chats: seq<Chat>, which: Session -> bool)
    requires Core(g) && |chats| > 0
    ensures var c, sel := chats[|chats| - 1], Chosen(g, chats[..|chats| - 1], which);
            Chosen(g, chats, which) == if c in g.threads && g.threads[c] in g.sessions && which(g.sessions[g.threads[c]]) then sel + {g.threads[c]} else sel
  {
    hide Sessions, Requests, Runs;
    var c := chats[|chats| - 1];
    assert chats == chats[..|chats| - 1] + [c];
    if c in g.threads { assert ThreadOk(g, c); }
  }

  /** A chat still registered is as it was, up to what a stop does; one no longer registered was stopped before. */
  lemma StillThere(g: State, g1: State, sel: set<SessionRef>, which: Session -> bool, c: Chat)
    requires Core(g) && Core(g1) && StopsJust(g, g1, sel) && Steady(which)
    requires forall s :: s in sel ==> s in g.sessions && which(g.sessions[s])
    ensures c in g1.threads ==>
              && IsRegistered(g1, g1.threads[c]) && IsRegistered(g, g1.threads[c]) && c in g.threads && g.threads[c] == g1.threads[c]
              && which(g1.sessions[g1.threads[c]]) == which(g.sessions[g1.threads[c]])
    ensures c !in g1.threads && c in g.threads ==> g.threads[c] in sel
  {
    hide Sessions, Requests, Runs, Halts;
    if c in g1.threads { assert ThreadOk(g1, c) && ThreadOk(g, c); }
  }

  /** The session registered for a chat, if there is one. */
  ghost function ChatOf(g: State, chat: Chat): set<SessionRef> { set s | s in g.sessions && IsRegistered(g, s) && g.sessions[s].chat == chat }

  ghost function DeviceChat(g: State, chat: Chat): set<SessionRef> { set s | s in g.sessions && s in ChatOf(g, chat) && g.sessions[s].device }

  ghost function DeviceChats(g: State, owner: Owner): set<SessionRef> {
    set s | s in g.sessions && IsRegistered(g, s) && g.sessions[s].device && g.sessions[s].owner == owner
  }

  ghost function Registrants(g: State): set<SessionRef> { set s | s in g.sessions && IsRegistered(g, s) }

  /** StopThread stops its chat, whatever its kind, and no other. */
  lemma StopThreadStops(g: State, chat: Chat)
    requires Inv(g)
    ensures StopsJust(g, Next(g, StopThread(chat)), ChatOf(g, chat))
  {
    hide Inv, StopEach, StopsJust;
    var which := (x: Session) => true;
    StopEachSelects(g, [chat], which);
    assert Chosen(g, [chat], which) == ChatOf(g, chat);
  }

  /** StopDeviceThread stops its chat if that is a device chat, and nothing otherwise. */
  lemma StopDeviceStops(g: State, chat: Chat)
    requires Inv(g)
    ensures StopsJust(g, Next(g, StopDevice(chat)), DeviceChat(g, chat))
  {
    hide Inv, StopEach, StopsJust;
    var which := (x: Session) => x.device;
    StopEachSelects(g, [chat], which);
    assert Chosen(g, [chat], which) == DeviceChat(g, chat);
  }

  /** StopDeviceThreads stops the caller's device chats, every one, and nobody else's and none kept in the cloud. */
  lemma StopDevicesStops(g: State, owner: Owner, chats: seq<Chat>)
    requires Inv(g) && Covers(chats, g.threads)
    ensures StopsJust(g, Next(g, StopDevices(owner, chats)), DeviceChats(g, owner))
  {
    hide Inv, StopEach, StopsJust;
    var which := (x: Session) => x.device && x.owner == owner;
    StopEachSelects(g, chats, which);
    assert Chosen(g, chats, which) == DeviceChats(g, owner);
  }

  // ---- Shutting down ----

  /** Whatever the order, shutting down halts each chat visited and keeps it registered. */
  lemma {:induction false} ShutEachSelects(g: State, chats: seq<Chat>)
    requires Sound(g)
    ensures ShutsJust(g, ShutEach(g, chats), Chosen(g, chats, x => true))
  {
    hide Sound, Quiet, CancelActive, ClearQueue, ShutsJust, Chosen;
    if chats == [] {
      NoneStopped(g, x => true);
    } else {
      var n := |chats| - 1;
      ShutEachSelects(g, chats[..n]);
      ShutEachSound(g, chats[..n]);
      ShutMore(g, chats, ShutEach(g, chats[..n]));
    }
  }

  lemma ShutMore(g: State, chats: seq<Chat>, g1: State)
    requires Sound(g) && Sound(g1) && |chats| > 0 && ShutsJust(g, g1, Chosen(g, chats[..|chats| - 1], x => true))
    ensures var c := chats[|chats| - 1];
            ShutsJust(g, if c in g1.threads && g1.threads[c] in g1.sessions
                         then ClearQueue(CancelActive(g1, g1.threads[c]), g1.threads[c], g1.sessions[g1.threads[c]]) else g1,
                      Chosen(g, chats, x => true))
  {
    hide Core, Workers, CancelActive, ClearQueue, Chosen, Halts;
    var n, c := |chats| - 1, chats[|chats| - 1];
    var sel := Chosen(g, chats[..n], x => true);
    ChosenMore(g, chats, x => true);
    SameKeys(g, g1, sel);
    if c in g1.threads && g1.threads[c] in g1.sessions {
      var s := g1.threads[c];
      if s in sel {
        ShutTwice(g, g1, sel, s);
        assert sel + {s} == sel;
      } else {
        ShutIsJust(g1, s);
        ShutsMore(g, g1, ClearQueue(CancelActive(g1, s), s, g1.sessions[s]), sel, s);
      }
    }
  }

  lemma ShutTwice(g: State, g1: State, sel: set<SessionRef>, s: SessionRef)
    requires Core(g) && ShutsJust(g, g1, sel) && s in sel && s in g.sessions && s in g1.sessions
    ensures ClearQueue(CancelActive(g1, s), s, g1.sessions[s]) == g1
  {
    hide Core, Halts, EndRuns;
    if g.sessions[s].active.Some? {
      StoppedActive(g, g1, sel, s);
      NothingLeft(g1, s);
    } else {
      assert Members([]) == {};
      EndNone(g1);
      assert g1.sessions[s := g1.sessions[s].(queue := [])] == g1.sessions;
    }
  }

  /** Shutting down tells every running reply of a registered chat to stop, ends every queued turn, and unregisters no chat. */
  lemma ShutdownStops(g: State, chats: seq<Chat>)
    requires Inv(g) && Covers(chats, g.threads)
    ensures ShutsJust(g, Next(g, Shutdown(chats)), Registrants(g))
    ensures var g' := Next(g, Shutdown(chats));
            forall s :: s in g.sessions && g.sessions[s].active.Some? ==>
              g.sessions[s].active.value in g'.all && g'.all[g.sessions[s].active.value].cancelled
  {
    hide Core, Quiet, Workers, ShutEach, ShutsJust;
    var g' := Next(g, Shutdown(chats));
    ShutEachSelects(g, chats);
    assert Chosen(g, chats, x => true) == Registrants(g);
    forall s | s in g.sessions && g.sessions[s].active.Some?
      ensures g.sessions[s].active.value in g'.all && g'.all[g.sessions[s].active.value].cancelled
    {
      SessionFacts(g, s);
      assert Halts(g, g', Registrants(g)) by { ShutHalts(g, g', Registrants(g)); }
      StoppedActive(g, g', Registrants(g), s);
    }
  }

  lemma ShutHalts(g: State, g': State, sel: set<SessionRef>)
    requires ShutsJust(g, g', sel)
    ensures Halts(g, g', sel)
  {}

  // ---- Who may stop a turn ----

  /** r waits in the queue of the chat that t runs in. */
  predicate WaitsBehind(g: State, r: RunRef, t: RunRef) {
    HasSession(g, r) && r in g.sessions[SessionOf(g, r)].queue && g.sessions[SessionOf(g, r)].active == Some(t)
  }

  /** But for the stops, a turn is told to stop only by its own cancel or by a turn sent from its own chat's queue, which alone makes it yield. */
  lemma OnlyItsOwnRequests(g: State, step: Step, t: RunRef)
    requires Inv(g) && Enabled(g, step) && t in g.all && !IsStop(step)
    ensures t in Next(g, step).all
    ensures var x, y := g.all[t], Next(g, step).all[t];
            && (y.cancelled ==> x.cancelled || step == Cancel(t) || step == Remove(t) || (step.Send? && WaitsBehind(g, step.r, t)))
            && (y.yielded ==> x.yielded || (step.Send? && WaitsBehind(g, step.r, t)))
  {
    hide Inv, Enabled, Next, WaitsBehind;
    if IsAdvance(step) {
      AdvanceStepFlags(g, step, t);
    } else if step.Admit? || step.Cancel? || step.Send? || step.Remove? {
      RequestFlags(g, step, t);
    } else {
      OtherFlags(g, step, t);
    }
  }

  lemma AdvanceStepFlags(g: State, step: Step, t: RunRef)
    requires Inv(g) && Enabled(g, step) && t in g.all && IsAdvance(step)
    ensures var g' := Next(g, step);
            t in g'.all && g'.all[t].cancelled == g.all[t].cancelled && g'.all[t].yielded == g.all[t].yielded
  {
    hide Core, Quiet, Workers, Advance;
    if step.Commit? {
      AdvanceFlags(g, step.r, !g.all[step.r].phase.stopped || g.all[step.r].yielded, Finishing, t);
    } else {
      AdvanceFlags(g, step.r, true, Unstarted, t);
    }
  }

  lemma RequestFlags(g: State, step: Step, t: RunRef)
    requires Enabled(g, step) && t in g.all && (step.Admit? || step.Cancel? || step.Send? || step.Remove?)
    ensures t in Next(g, step).all
    ensures var x, y := g.all[t], Next(g, step).all[t];
            && (y.cancelled ==> x.cancelled || step == Cancel(t) || step == Remove(t) || (step.Send? && WaitsBehind(g, step.r, t)))
            && (y.yielded ==> x.yielded || (step.Send? && WaitsBehind(g, step.r, t)))
  {
    hide Admitted, Cancelled, Sent, RemoveQueued, MayJoin;
    match step
    case Admit(r, chat, owner, device, _, s) => AdmitFlags(g, r, chat, owner, device, s, t);
    case Cancel(r) => CancelFlags(g, r, t);
    case Send(r) => SendFlags(g, r, t);
    case Remove(r) => RemoveFlags(g, r, t);
  }

  lemma OtherFlags(g: State, step: Step, t: RunRef)
    requires Enabled(g, step) && t in g.all && !IsStop(step) && !IsAdvance(step)
    requires !step.Admit? && !step.Cancel? && !step.Send? && !step.Remove?
    ensures var g' := Next(g, step);
            t in g'.all && g'.all[t].cancelled == g.all[t].cancelled && g'.all[t].yielded == g.all[t].yielded
  {
    hide Advance, Admitted, Cancelled, Sent, RemoveQueued, StopEach, ShutEach, MayJoin, MayTransfer, Forget;
  }

  lemma AdvanceFlags(g: State, r: RunRef, goOn: bool, after: Phase, t: RunRef)
    requires Core(g) && HasSession(g, r) && IsActive(g.all[r].phase) && t in g.all
    ensures var g' := Advance(g, r, goOn, after);
            t in g'.all && g'.all[t].cancelled == g.all[t].cancelled && g'.all[t].yielded == g.all[t].yielded
  {
    hide Core, Advance, IdleThreads, Forget;
    var s := SessionOf(g, r);
    AdvanceFacts(g, r);
    var q := g.sessions[s].queue;
    forall u | u in q ensures u in g.all { QueuedFacts(g, s, u); }
    if GoesOn(g, g.sessions[s], goOn) {
      PromotedShape(g, r, goOn, after);
    } else {
      AdvanceClearsShape(g, r, goOn, after);
      MembersOf(q);
    }
  }

  lemma AdmitFlags(g: State, r: RunRef, chat: Chat, owner: Owner, device: bool, s: SessionRef, t: RunRef)
    requires r in g.all && t in g.all
    ensures var g' := Admitted(g, r, chat, owner, device, s);
            t in g'.all && g'.all[t].cancelled == g.all[t].cancelled && g'.all[t].yielded == g.all[t].yielded
  {}

  lemma RemoveFlags(g: State, r: RunRef, t: RunRef)
    requires HasSession(g, r) && t in g.all
    ensures var g' := RemoveQueued(g, r);
            t in g'.all && (t != r ==> g'.all[t] == g.all[t]) && g'.all[t].yielded == g.all[t].yielded
  {
    hide RemoveQueued, IdleThreads, Forget, Without;
    if r in g.sessions[SessionOf(g, r)].queue { RemoveQueuedShape(g, r); } else { RemoveNothing(g, r); }
  }

  lemma CancelFlags(g: State, r: RunRef, t: RunRef)
    requires HasSession(g, r) && t in g.all
    ensures var g' := Cancelled(g, r);
            t in g'.all && (t != r ==> g'.all[t] == g.all[t]) && g'.all[t].yielded == g.all[t].yielded
  {
    hide RemoveQueued;
    RemoveFlags(g, r, t);
  }

  lemma SendFlags(g: State, r: RunRef, t: RunRef)
    requires HasSession(g, r) && t in g.all
    ensures t in Sent(g, r).all && (Sent(g, r).all[t] == g.all[t] || WaitsBehind(g, r, t))
  {
    hide Without;
  }

  // ---- Deleted chats, and compactions ----

  /** Once a chat's session is deleted, none of its turns starts, and no turn is admitted to it. */
  lemma {:induction false} NothingStartsOnceDeleted(gs: seq<State>, steps: seq<Step>, i: nat, j: nat, s: SessionRef)
    requires History(gs, steps) && i <= j < |steps| && s in gs[i].sessions && gs[i].sessions[s].deleted
    ensures s in gs[j].sessions && gs[j].sessions[s].deleted
    ensures steps[j].Start? ==> gs[j].all[steps[j].r].session != Some(s)
    ensures steps[j].Admit? ==> gs[j + 1].all[steps[j].r].session != Some(s)
  {
    hide Inv, Next, QueueMoves;
    HistoryInv(gs, steps, j);
    if i < j {
      HistoryInv(gs, steps, j - 1);
      NothingStartsOnceDeleted(gs, steps, i, j - 1, s);
      StepQueues(gs[j - 1], steps[j - 1]);
    }
    if steps[j].Admit? { AdmittedElsewhere(gs[j], steps[j], s); }
  }

  lemma AdmittedElsewhere(g: State, step: Step, s: SessionRef)
    requires Inv(g) && step.Admit? && Enabled(g, step) && s in g.sessions && g.sessions[s].deleted
    ensures step.r in Next(g, step).all && Next(g, step).all[step.r].session != Some(s)
  {
    hide Inv;
  }

  /** A compaction never waits in a queue: it is admitted to a chat with nothing running, and starts next. */
  lemma CompactionNeverWaits(g: State, step: Step)
    requires Inv(g) && step.Admit? && Enabled(g, step) && step.compact
    ensures step.r in Next(g, step).all && Next(g, step).all[step.r].phase == Launching
  {
    hide Inv;
  }

  // ---- Whose turns a chat holds ----

  /** Admission puts a turn in a session of its own caller, kind and chat. */
  lemma AdmittedToOwn(g: State, step: Step)
    requires Inv(g) && step.Admit? && Enabled(g, step)
    ensures var g' := Next(g, step);
            && HasSession(g', step.r)
            && var x := g'.sessions[SessionOf(g', step.r)];
               x.owner == step.owner && x.device == step.device && x.chat == step.chat
  {
    hide Sessions, Runs, Requests, Workers, Quiet;
    if step.chat in g.threads { assert ThreadOk(g, step.chat); }
  }

  /**
   Whatever happens after its admission, a turn belongs to a session of the caller, the
   kind and the chat it was admitted under. So a chat's queue never holds a turn of
   another caller, nor a cloud chat's a device turn.
   */
  lemma {:induction false} HeldUnderItsCaller(gs: seq<State>, steps: seq<Step>, k: nat, i: nat)
    requires History(gs, steps) && k < i < |gs| && steps[k].Admit?
    ensures HasSession(gs[i], steps[k].r)
    ensures var x := gs[i].sessions[SessionOf(gs[i], steps[k].r)];
            x.owner == steps[k].owner && x.device == steps[k].device && x.chat == steps[k].chat
  {
    hide Inv, Enabled, Next, Precedes, QueueMoves;
    HistoryInv(gs, steps, i - 1);
    if i == k + 1 {
      AdmittedToOwn(gs[k], steps[k]);
    } else {
      HeldUnderItsCaller(gs, steps, k, i - 1);
      StepMoves(gs[i - 1], steps[i - 1]);
      StepQueues(gs[i - 1], steps[i - 1]);
    }
  }

  ghost predicate AdmittedAt(steps: seq<Step>, k: int, r: RunRef) {
    0 <= k < |steps| && steps[k].Admit? && steps[k].r == r
  }

  /** Every turn a session holds was admitted under the session's caller, kind and chat. */
  lemma HeldWasAdmitted(gs: seq<State>, steps: seq<Step>, i: nat, s: SessionRef, r: RunRef)
    requires History(gs, steps) && i < |gs| && s in gs[i].sessions && Holds(gs[i].sessions[s], r)
    ensures exists k :: AdmittedAt(steps, k, r) && k < i
    ensures forall k :: AdmittedAt(steps, k, r) && k < i ==>
              var x := gs[i].sessions[s]; x.owner == steps[k].owner && x.device == steps[k].device && x.chat == steps[k].chat
  {
    hide Inv, Enabled, Next;
    HistoryInv(gs, steps, i);
    HeldHere(gs[i], s, r);
    var k := AdmittedBefore(gs, steps, i, s, r);
    forall k | AdmittedAt(steps, k, r) && k < i
      ensures var x := gs[i].sessions[s]; x.owner == steps[k].owner && x.device == steps[k].device && x.chat == steps[k].chat
    {
      HeldUnderItsCaller(gs, steps, k, i);
    }
  }

  lemma HeldHere(g: State, s: SessionRef, r: RunRef)
    requires Inv(g) && s in g.sessions && Holds(g.sessions[s], r)
    ensures r in g.all && g.all[r].session == Some(s)
  {
    hide Core, Quiet, Workers;
    HeldOnce(g, s, r);
  }

  /** A session comes to hold a turn by its admission. */
  lemma {:induction false} AdmittedBefore(gs: seq<State>, steps: seq<Step>, i: nat, s: SessionRef, r: RunRef) returns (k: nat)
    requires History(gs, steps) && i < |gs| && s in gs[i].sessions && Holds(gs[i].sessions[s], r)
    ensures AdmittedAt(steps, k, r) && k < i
  {
    hide Inv, Enabled, Next;
    k := i - 1;
    HistoryInv(gs, steps, k);
    StepQueues(gs[k], steps[k]);
    if s in gs[k].sessions {
      HeldBefore(gs[k].sessions[s], gs[k + 1].sessions[s], steps[k], r);
      if Holds(gs[k].sessions[s], r) { k := AdmittedBefore(gs, steps, i - 1, s, r); }
    }
  }

  lemma HeldBefore(x: Session, y: Session, step: Step, r: RunRef)
    requires QueueMoves(x, y, step) && Holds(y, r)
    ensures Holds(x, r) || (step.Admit? && step.r == r)
  {
    if (step.Remove? || step.Cancel? || step.Send?) && r in Without(x.queue, step.r) { WithoutFrom(x.queue, step.r, r); }
  }

  lemma {:induction false} WithoutFrom(q: seq<RunRef>, r: RunRef, t: RunRef)
    requires t in Without(q, r)
    ensures t in q
  {
    if q != [] && q[0] != r && t != q[0] { WithoutFrom(q[1..], r, t); }
  }
}
