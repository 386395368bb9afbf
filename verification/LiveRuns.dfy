/**
 The registry as the engine keeps it: maps and sessions changed in place, one
 method for each region under the lock. Each method is the step it stands for.
 */
module LiveRegistry {
  import opened Options
  import opened Registry
  import opened RegistryInvariant
  import opened RegistrySteps
  import opened RegistryStops

  // ---- One run at a time ----

  /** A run is registered under no request but its own. */
  ghost predicate OwnRequest(g: State, r: RunRef) {
    r in g.all && forall n :: n in g.requests && g.requests[n] == r ==> n == g.all[r].nonce
  }

  lemma OwnRequests(g: State, r: RunRef)
    requires Requests(g) && r in g.all
    ensures OwnRequest(g, r)
  {
    forall n | n in g.requests && g.requests[n] == r ensures n == g.all[r].nonce { assert RequestOk(g, n); }
  }

  lemma ForgetOne(g: State, r: RunRef)
    requires OwnRequest(g, r)
    ensures var n := g.all[r].nonce;
            Forget(g, {r}).requests == if n in g.requests && g.requests[n] == r then g.requests - {n} else g.requests
    ensures Forget(g, {r}).runs == g.runs - {r}
  {}

  lemma EndOne(g: State, r: RunRef)
    requires r in g.all
    ensures EndRuns(g, {r}) == Forget(g, {r}).(all := g.all[r := EndedRun(g.all[r])])
  {
    hide Forget;
  }

  lemma EndMore(g: State, rs: set<RunRef>, r: RunRef)
    requires r !in rs && r in g.all
    ensures EndRuns(EndRuns(g, rs), {r}) == EndRuns(g, rs + {r})
  {
    ForgetTwice(g, rs, {r});
    var a, b := EndRuns(EndRuns(g, rs), {r}), EndRuns(g, rs + {r});
    assert a.all == b.all;
    assert a.runs == b.runs;
    assert a.requests == b.requests;
  }

  lemma EndKeepsOwn(g: State, rs: set<RunRef>, r: RunRef)
    requires OwnRequest(g, r) && r !in rs
    ensures OwnRequest(EndRuns(g, rs), r)
  {}

  lemma MembersMore(q: seq<RunRef>, i: nat)
    requires i < |q|
    ensures Members(q[..i + 1]) == Members(q[..i]) + {q[i]}
  {
    assert q[..i + 1] == q[..i] + [q[i]];
    MembersOf(q[..i]);
    MembersOf(q[..i + 1]);
  }

  lemma {:induction false} WithoutCuts(q: seq<RunRef>, i: nat)
    requires i < |q| && forall k :: 0 <= k < i ==> q[k] != q[i]
    ensures Without(q, q[i]) == q[..i] + q[i + 1..]
  {
    if i > 0 {
      var rest := q[1..];
      assert forall k :: 0 <= k < i - 1 ==> rest[k] == q[k + 1];
      assert rest[i - 1] == q[i];
      WithoutCuts(rest, i - 1);
      assert [q[0]] + (rest[..i - 1] + rest[i..]) == q[..i] + q[i + 1..];
    }
  }

  /** slices.Index: where a run first stands in a queue, or -1. */
  method Index(q: seq<RunRef>, r: RunRef) returns (i: int)
    ensures -1 <= i < |q| && (i >= 0 <==> r in q)
    ensures i >= 0 ==> q[i] == r && Without(q, r) == q[..i] + q[i + 1..]
  {
    i := 0;
    while i < |q| && q[i] != r
      invariant 0 <= i <= |q| && r !in q[..i]
    {
      assert q[..i + 1] == q[..i] + [q[i]];
      i := i + 1;
    }
    if i == |q| {
      assert q[..i] == q;
      return -1;
    }
    assert forall k :: 0 <= k < i ==> q[k] == q[..i][k];
    WithoutCuts(q, i);
  }

  lemma QueueOwn(g: State, s: SessionRef)
    requires Core(g) && s in g.sessions
    ensures Distinct(g.sessions[s].queue)
    ensures forall i :: 0 <= i < |g.sessions[s].queue| ==> OwnRequest(g, g.sessions[s].queue[i])
  {
    hide Runs, Threads, OwnRequest;
    assert SessionOk(g, s);
    forall i | 0 <= i < |g.sessions[s].queue| ensures OwnRequest(g, g.sessions[s].queue[i]) {
      OwnRequests(g, g.sessions[s].queue[i]);
    }
  }

  /** Retiring a run leaves the requests of the others their own. */
  lemma RetiredOwn(g: State, g1: State, r: RunRef, t: RunRef)
    requires OwnRequest(g, t) && r != t
    requires g1.requests == Forget(g, {r}).requests && t in g1.all && g1.all[t] == g.all[t]
    ensures OwnRequest(g1, t)
  {}

  lemma SetOver(g: State, s: SessionRef, x: Session, y: Session)
    ensures SetSession(SetSession(g, s, x), s, y) == SetSession(g, s, y)
  {
    assert g.sessions[s := x][s := y] == g.sessions[s := y];
  }

  lemma SetIs(g: State, s: SessionRef, x: Session)
    ensures SetSession(g, s, x) == g.(sessions := g.sessions[s := x])
  {}

  lemma PromoteOver(g: State, s: SessionRef, x: Session)
    requires |x.queue| > 0
    ensures Promote(SetSession(g, s, x), s, x) == Promote(g, s, x)
  {
    hide SetSession;
    SetOver(g, s, x, x.(active := Some(x.queue[0]), queue := x.queue[1..]));
    SetIs(g, s, x);
  }

  lemma ClearQueueOver(g: State, s: SessionRef, x: Session)
    ensures ClearQueue(SetSession(g, s, x), s, x) == ClearQueue(g, s, x)
  {
    var a, b := EndRuns(SetSession(g, s, x), Members(x.queue)), EndRuns(g, Members(x.queue));
    assert a == b.(sessions := a.sessions);
  }

  /** What admit answers a turn. */
  datatype Verdict = Joined | ShuttingDown | Unavailable | InFlight | QueueFull

  class LiveRuns {
    var closing: bool
    var threads: map<Chat, SessionRef>
    var sessions: map<SessionRef, Session>
    var runs: set<RunRef>
    var requests: map<Nonce, RunRef>
    var all: map<RunRef, Run>
    var working: int

    ghost function View(): State
      reads this
    {
      State(closing, threads, sessions, runs, requests, all, working)
    }

    constructor ()
      ensures View() == INIT && Inv(View())
    {
      closing, threads, sessions, runs, requests, all, working := false, map[], map[], {}, map[], map[], 0;
      new;
      assert Workers(INIT) == {};
    }

    // ---- What the regions share ----

    method ForgetRun(r: RunRef)
      requires OwnRequest(View(), r)
      modifies this`runs, this`requests
      ensures View() == Forget(old(View()), {r})
    {
      ForgetOne(View(), r);
      runs := runs - {r};
      var n := all[r].nonce;
      if n in requests && requests[n] == r {
        requests := requests - {n};
      }
    }

    method EndQueued(r: RunRef)
      requires OwnRequest(View(), r)
      modifies this`runs, this`requests, this`all
      ensures View() == EndRuns(old(View()), {r})
    {
      EndOne(View(), r);
      ForgetRun(r);
      all := all[r := EndedRun(all[r])];
    }

    method EndEach(q: seq<RunRef>)
      requires Distinct(q) && forall i :: 0 <= i < |q| ==> OwnRequest(View(), q[i])
      modifies this`runs, this`requests, this`all
      ensures View() == EndRuns(old(View()), Members(q))
    {
      ghost var g := View();
      EndNone(g);
      assert Members(q[..0]) == {};
      for i := 0 to |q|
        invariant View() == EndRuns(g, Members(q[..i]))
      {
        MembersMore(q, i);
        NotYet(q, i);
        EndKeepsOwn(g, Members(q[..i]), q[i]);
        EndMore(g, Members(q[..i]), q[i]);
        EndQueued(q[i]);
      }
      assert q[..|q|] == q;
    }

    static lemma NotYet(q: seq<RunRef>, i: nat)
      requires Distinct(q) && i < |q|
      ensures q[i] !in Members(q[..i])
    {}

    method DropIfIdle(s: SessionRef)
      requires s in sessions
      modifies this`threads
      ensures View() == DropIdle(old(View()), s)
    {
      var x := sessions[s];
      if x.active.Some? || |x.queue| > 0 { return; }
      if x.chat in threads && threads[x.chat] == s {
        threads := threads - {x.chat};
      }
    }

    method CancelRunning(s: SessionRef)
      requires s in sessions
      modifies this`all
      ensures View() == CancelActive(old(View()), s)
    {
      var active := sessions[s].active;
      if active.Some? && active.value in all {
        all := all[active.value := all[active.value].(cancelled := true)];
      }
    }

    /** Ends every turn queued in a chat. */
    method EndQueue(s: SessionRef)
      requires s in sessions && Distinct(sessions[s].queue)
      requires forall i :: 0 <= i < |sessions[s].queue| ==> OwnRequest(View(), sessions[s].queue[i])
      modifies this`runs, this`requests, this`all, this`sessions
      ensures View() == ClearQueue(old(View()), s, old(sessions[s]))
    {
      EndRunsShape(View(), Members(sessions[s].queue));
      EndEach(sessions[s].queue);
      sessions := sessions[s := sessions[s].(queue := [])];
    }

    // ---- The regions ----

    /** advance: the run gives up its chat's slot; next is the turn that takes it, if one does. */
    method RetireRun(r: RunRef, goOn: bool, after: Phase) returns (next: Option<RunRef>)
      requires Core(View()) && HasSession(View(), r) && IsActive(all[r].phase)
      modifies this
      ensures View() == Advance(old(View()), r, goOn, after)
      ensures next == var x := old(sessions[all[r].session.value]);
                      if GoesOn(old(View()), x, goOn) then Some(x.queue[0]) else None
    {
      hide Core, EndRuns, DropIdle, Forget;
      ghost var g := View();
      var s := all[r].session.value;
      AdvanceFacts(g, r);
      RetireOwn(g, r, after);
      ForgetRun(r);
      all := all[r := all[r].(phase := after)];
      if sessions[s].active == Some(r) {
        sessions := sessions[s := sessions[s].(active := None)];
      }
      RetireSpec(g, r, goOn, after);
      next := PassOn(s, goOn);
      assert next == if GoesOn(g, g.sessions[s], goOn) then Some(g.sessions[s].queue[0]) else None;
      DropIfIdle(s);
    }

    static lemma RetireOwn(g: State, r: RunRef, after: Phase)
      requires Core(g) && HasSession(g, r) && IsActive(g.all[r].phase)
      ensures OwnRequest(g, r)
      ensures var s := SessionOf(g, r);
              var x := g.sessions[s].(active := None);
              var g1 := SetSession(SetRun(Forget(g, {r}), r, g.all[r].(phase := after)), s, x);
              && Distinct(x.queue) && (forall i :: 0 <= i < |x.queue| ==> OwnRequest(g1, x.queue[i]))
              && (x.queue != [] ==> x.queue[0] in g1.all)
    {
      hide Core, Forget, OwnRequest;
      var s := SessionOf(g, r);
      var q := g.sessions[s].queue;
      var g1 := SetSession(SetRun(Forget(g, {r}), r, g.all[r].(phase := after)), s, g.sessions[s].(active := None));
      AdvanceFacts(g, r);
      QueueOwn(g, s);
      assert OwnRequest(g, r) by { assert Requests(g) by { CoreRequests(g); } OwnRequests(g, r); }
      forall i | 0 <= i < |q| ensures OwnRequest(g1, q[i]) {
        QueuedFacts(g, s, q[i]);
        RetiredOwn(g, g1, r, q[i]);
      }
      if q != [] { QueuedFacts(g, s, q[0]); }
    }

    static lemma RetireSpec(g: State, r: RunRef, goOn: bool, after: Phase)
      requires HasSession(g, r) && g.sessions[SessionOf(g, r)].active == Some(r)
      ensures var s := SessionOf(g, r);
              var x := g.sessions[s].(active := None);
              var g1 := SetSession(SetRun(Forget(g, {r}), r, g.all[r].(phase := after)), s, x);
              && GoesOn(g1, x, goOn) == GoesOn(g, g.sessions[s], goOn)
              && Advance(g, r, goOn, after) == DropIdle(if GoesOn(g1, x, goOn) then Promote(g1, s, x) else ClearQueue(g1, s, x), s)
    {
      hide DropIdle, EndRuns, Forget;
      var s := SessionOf(g, r);
      var x := g.sessions[s].(active := None);
      var g0 := SetRun(Forget(g, {r}), r, g.all[r].(phase := after));
      ClearQueueOver(g0, s, x);
      if |x.queue| > 0 { PromoteOver(g0, s, x); }
    }

    static lemma CoreRequests(g: State)
      requires Core(g)
      ensures Requests(g)
    {}

    /** The chat's slot is free: gives it to the turn first in the queue, or ends the queue. */
    method PassOn(s: SessionRef, goOn: bool) returns (next: Option<RunRef>)
      requires s in sessions && Distinct(sessions[s].queue) && (sessions[s].queue != [] ==> sessions[s].queue[0] in all)
      requires forall i :: 0 <= i < |sessions[s].queue| ==> OwnRequest(View(), sessions[s].queue[i])
      modifies this
      ensures var g, x := old(View()), old(sessions[s]);
              if GoesOn(g, x, goOn)
              then View() == Promote(g, s, x) && next == Some(x.queue[0])
              else View() == ClearQueue(g, s, x) && next == None
    {
      var x := sessions[s];
      if goOn && !x.deleted && !closing && |x.queue| > 0 {
        next := Some(x.queue[0]);
        sessions := sessions[s := x.(active := next, queue := x.queue[1..])];
        all := all[x.queue[0] := all[x.queue[0]].(phase := Launching)];
      } else {
        next := None;
        EndQueue(s);
      }
    }

    /** stop: marks a chat deleted, cancels its reply and ends its queue. */
    method StopChat(s: SessionRef)
      requires Inv(View()) && s in sessions
      modifies this
      ensures View() == StopSession(old(View()), s) && Inv(View())
    {
      hide Sound, EndRuns, DropIdle, Quiet;
      ghost var g := View();
      StopSessionInv(g, s);
      StopOwn(g, s);
      sessions := sessions[s := sessions[s].(deleted := true)];
      CancelRunning(s);
      ClearQueueOver(CancelActive(g, s), s, g.sessions[s].(deleted := true));
      EndQueue(s);
      DropIfIdle(s);
    }

    static lemma StopOwn(g: State, s: SessionRef)
      requires Inv(g) && s in g.sessions
      ensures var x := g.sessions[s].(deleted := true);
              var g1 := CancelActive(SetSession(g, s, x), s);
              && g1 == SetSession(CancelActive(g, s), s, x)
              && Distinct(x.queue) && (forall i :: 0 <= i < |x.queue| ==> OwnRequest(g1, x.queue[i]))
    {
      hide Core, Workers, Quiet;
      QueueOwn(g, s);
    }

    /** removeQueued: ends a turn still waiting, and reports whether it was. */
    method RemoveWaiting(r: RunRef) returns (waited: bool)
      requires Inv(View()) && HasSession(View(), r)
      modifies this
      ensures View() == RemoveQueued(old(View()), r) && Inv(View())
      ensures waited == (r in old(sessions[all[r].session.value].queue))
    {
      hide Core, Workers, Quiet, RemoveQueued, Without;
      ghost var g := View();
      RemoveQueuedInv(g, r);
      NothingToRemove(g, r);
      var s := all[r].session.value;
      var i := Index(sessions[s].queue, r);
      waited := i >= 0;
      if waited {
        RemoveOwn(g, r);
        RemoveAt(r, s, i);
      }
    }

    method RemoveAt(r: RunRef, s: SessionRef, i: nat)
      requires HasSession(View(), r) && s == all[r].session.value && OwnRequest(View(), r)
      requires var q := sessions[s].queue; i < |q| && q[i] == r && Without(q, r) == q[..i] + q[i + 1..]
      modifies this
      ensures View() == RemoveQueued(old(View()), r)
    {
      hide Without, EndRuns, DropIdle;
      var x := sessions[s];
      sessions := sessions[s := x.(queue := x.queue[..i] + x.queue[i + 1..])];
      all := all[r := all[r].(cancelled := true)];
      EndRunsShape(View(), {r});
      EndQueued(r);
      DropIfIdle(s);
    }

    static lemma RemoveOwn(g: State, r: RunRef)
      requires Core(g) && r in g.all
      ensures OwnRequest(g, r)
    {
      OwnRequests(g, r);
    }

    /** CancelThread: a waiting turn ends, a running reply is told to stop, and one that is ending is left. */
    method CancelTurn(r: RunRef) returns (ok: bool)
      requires Inv(View()) && HasSession(View(), r)
      modifies this
      ensures View() == Cancelled(old(View()), r) && Inv(View())
      ensures ok == var x := old(sessions[all[r].session.value]);
                    r in x.queue || (x.active == Some(r) && !old(all[r].phase.Ending?))
    {
      hide Inv, RemoveQueued;
      ghost var g := View();
      CancelInv(g, r);
      NothingToRemove(g, r);
      ok := RemoveWaiting(r);
      if ok { return; }
      if sessions[all[r].session.value].active != Some(r) || all[r].phase.Ending? { return; }
      all := all[r := all[r].(cancelled := true)];
      ok := true;
    }

    static lemma NothingToRemove(g: State, r: RunRef)
      requires HasSession(g, r)
      ensures r !in g.sessions[SessionOf(g, r)].queue ==> RemoveQueued(g, r) == g
    {}

    /** SendQueued: the session's active run is there whenever the turn is queued. */
    method SendTurn(r: RunRef) returns (ok: bool)
      requires Inv(View()) && HasSession(View(), r)
      modifies this
      ensures View() == Sent(old(View()), r) && Inv(View())
      ensures ok == (r in old(sessions[all[r].session.value].queue))
    {
      hide Inv, Without;
      ghost var g := View();
      SendInv(g, r);
      var s := all[r].session.value;
      var x := sessions[s];
      var i := Index(x.queue, r);
      ok := i >= 0;
      if ok {
        SendActive(g, s, r);
        sessions := sessions[s := x.(queue := [r] + (x.queue[..i] + x.queue[i + 1..]))];
        var a := x.active.value;
        all := all[a := all[a].(yielded := true)];
        if !all[a].phase.Ending? {
          all := all[a := all[a].(cancelled := true)];
        }
      }
    }

    static lemma SendActive(g: State, s: SessionRef, r: RunRef)
      requires Inv(g) && s in g.sessions && r in g.sessions[s].queue
      ensures g.sessions[s].active.Some? && g.sessions[s].active.value in g.all
    {
      hide Runs, Requests, Threads, Workers;
      SessionFacts(g, s);
    }

    /** Stop: from now the service is closing; chat by chat, in any order, replies are cancelled and queues ended. */
    method StopAll() returns (ghost order: seq<Chat>)
      requires Inv(View())
      modifies this
      ensures Covers(order, old(threads))
      ensures View() == ShutEach(old(View()), order) && Inv(View())
      ensures ShutsJust(old(View()), View(), Registrants(old(View())))
    {
      hide Sound, CancelActive, ClearQueue, Quiet, ShutsJust;
      ghost var g := View();
      closing := true;
      order := [];
      var left := threads.Keys;
      while left != {}
        invariant left <= g.threads.Keys && View() == ShutEach(g, order)
        invariant forall c :: c in order <==> c in g.threads && c !in left
        decreases |left|
      {
        var c :| c in left;
        ShutOwn(g, order, c);
        ShutEachSound(g, order);
        CancelRunning(threads[c]);
        EndQueue(threads[c]);
        ShutMore(g, order, c);
        order := order + [c];
        left := left - {c};
      }
      ShutdownInv(g, order);
      ShutdownStops(g, order);
    }

    static lemma ShutMore(g: State, order: seq<Chat>, c: Chat)
      requires Sound(g) && c in ShutEach(g, order).threads && ShutEach(g, order).threads[c] in ShutEach(g, order).sessions
      ensures var g1 := ShutEach(g, order);
              var s := g1.threads[c];
              ShutEach(g, order + [c]) == ClearQueue(CancelActive(g1, s), s, g1.sessions[s])
    {
      assert (order + [c])[..|order|] == order;
    }

    static lemma ShutOwn(g: State, order: seq<Chat>, c: Chat)
      requires Inv(g) && c in g.threads
      ensures var g1 := ShutEach(g, order);
              && c in g1.threads && g1.threads[c] in g1.sessions
              && var s := g1.threads[c];
                 var g2 := CancelActive(g1, s);
                 && s in g2.sessions && g2.sessions[s] == g1.sessions[s] && Distinct(g2.sessions[s].queue)
                 && forall i :: 0 <= i < |g2.sessions[s].queue| ==> OwnRequest(g2, g2.sessions[s].queue[i])
    {
      hide Core, CancelActive, ShutEach, Workers, OwnRequest, Quiet;
      ShutEachSound(g, order);
      RegisteredHere(g, c);
      var g1 := ShutEach(g, order);
      CancelActiveSound(g1, g1.threads[c]);
      QueueOwn(CancelActive(g1, g1.threads[c]), g1.threads[c]);
    }

    static lemma RegisteredHere(g: State, c: Chat)
      requires Core(g) && c in g.threads
      ensures g.threads[c] in g.sessions
    {
      assert ThreadOk(g, c);
    }

    /** StopDeviceThreads: stops every device chat of a caller, in any order. */
    method StopDeviceChats(owner: Owner) returns (ghost order: seq<Chat>)
      requires Inv(View())
      modifies this
      ensures Covers(order, old(threads))
      ensures View() == StopEach(old(View()), order, (x: Session) => x.device && x.owner == owner) && Inv(View())
      ensures StopsJust(old(View()), View(), DeviceChats(old(View()), owner))
    {
      hide Inv, StopSession, StopsJust;
      ghost var g := View();
      ghost var which := (x: Session) => x.device && x.owner == owner;
      order := [];
      var left := threads.Keys;
      while left != {}
        invariant left <= g.threads.Keys && View() == StopEach(g, order, which) && Inv(View())
        invariant forall c :: c in order <==> c in g.threads && c !in left
        decreases |left|
      {
        var c :| c in left;
        assert (order + [c])[..|order|] == order;
        if c in threads && threads[c] in sessions && sessions[threads[c]].device && sessions[threads[c]].owner == owner {
          StopChat(threads[c]);
        }
        order := order + [c];
        left := left - {c};
      }
      StopDevicesStops(g, owner, order);
    }

    /** StopThread: stops a chat, if it is registered. */
    method StopThreadChat(chat: Chat)
      requires Inv(View())
      modifies this
      ensures View() == Next(old(View()), StopThread(chat)) && Inv(View())
      ensures StopsJust(old(View()), View(), ChatOf(old(View()), chat))
    {
      hide Inv, StopSession, StopsJust;
      StopThreadStops(View(), chat);
      StopOne(View(), chat, x => true);
      if chat in threads {
        RegisteredChat(View(), chat);
        StopChat(threads[chat]);
      }
    }

    /** StopDeviceThread: stops a chat, if it is registered and a device chat. */
    method StopDeviceChat(chat: Chat)
      requires Inv(View())
      modifies this
      ensures View() == Next(old(View()), StopDevice(chat)) && Inv(View())
      ensures StopsJust(old(View()), View(), DeviceChat(old(View()), chat))
    {
      hide Inv, StopSession, StopsJust;
      StopDeviceStops(View(), chat);
      StopOne(View(), chat, (x: Session) => x.device);
      if chat in threads {
        RegisteredChat(View(), chat);
        if sessions[threads[chat]].device { StopChat(threads[chat]); }
      }
    }

    static lemma StopOne(g: State, chat: Chat, which: Session -> bool)
      ensures StopEach(g, [chat], which) ==
              if chat in g.threads && g.threads[chat] in g.sessions && which(g.sessions[g.threads[chat]])
              then StopSession(g, g.threads[chat]) else g
    {
      hide StopSession;
      assert [chat][..0] == [];
    }

    static lemma RegisteredChat(g: State, chat: Chat)
      requires Inv(g) && chat in g.threads
      ensures g.threads[chat] in g.sessions
    {
      hide Sessions, Runs, Requests, Workers, Quiet;
      RegisteredHere(g, chat);
    }

    /** AcceptTurn's registration: a new request gets a run, and a known one its run. */
    method RegisterTurn(nonce: Nonce, r: RunRef) returns (known: Option<RunRef>, refused: bool)
      requires Inv(View()) && r !in all
      modifies this
      ensures Inv(View())
      ensures refused == old(closing)
      ensures known == if !refused && nonce in old(requests) then Some(old(requests)[nonce]) else None
      ensures known.Some? ==> known.value in all && IsRequested(all[known.value].phase) && all[known.value].nonce == nonce
      ensures refused || known.Some? ==> View() == old(View())
      ensures !refused && known.None? ==> Enabled(old(View()), Register(r, nonce)) && View() == Next(old(View()), Register(r, nonce))
    {
      hide Sound, Quiet;
      ghost var g := View();
      known, refused := None, closing;
      if closing { return; }
      if nonce in requests {
        KnownTurn(g, nonce);
        known := Some(requests[nonce]);
      } else {
        RegisterInv(g, r, nonce);
        all := all[r := Run(None, nonce, Registered, false, false, false, 0, 0, 0, 0)];
        requests := requests[nonce := r];
      }
    }

    static lemma KnownTurn(g: State, nonce: Nonce)
      requires Inv(g) && nonce in g.requests
      ensures RequestOk(g, nonce)
    {}

    /** admit's region: the turn joins its chat, or is refused and nothing changes. */
    method AdmitTurn(r: RunRef, chat: Chat, owner: Owner, device: bool, compact: bool, s: SessionRef) returns (v: Verdict)
      requires Inv(View()) && InPhase(View(), r, Registered) && s !in sessions
      modifies this
      ensures Inv(View())
      ensures v != Joined ==> View() == old(View())
      ensures v == Joined <==> Enabled(old(View()), Admit(r, chat, owner, device, compact, s))
      ensures v == Joined ==> View() == Next(old(View()), Admit(r, chat, owner, device, compact, s))
      ensures v == ShuttingDown <==> old(closing)
      ensures v == QueueFull ==> |old(sessions[threads[chat]].queue)| == MAX_QUEUED_TURNS
    {
      hide Inv, Admitted;
      ghost var g := View();
      if closing { return ShuttingDown; }
      if chat in threads {
        ChatThere(g, chat);
        var x := sessions[threads[chat]];
        if x.deleted || x.owner != owner || x.device != device { return Unavailable; }
        if x.active.Some? && compact { return InFlight; }
        if x.active.Some? && |x.queue| >= MAX_QUEUED_TURNS { return QueueFull; }
      }
      AdmitInv(g, r, chat, owner, device, compact, s);
      Join(r, chat, owner, device, s);
      v := Joined;
    }

    static lemma ChatThere(g: State, chat: Chat)
      requires Inv(g) && chat in g.threads
      ensures g.threads[chat] in g.sessions && |g.sessions[g.threads[chat]].queue| <= MAX_QUEUED_TURNS
    {
      hide Runs, Requests, Workers, Quiet;
      RegisteredHere(g, chat);
      SessionFacts(g, g.threads[chat]);
    }

    method Join(r: RunRef, chat: Chat, owner: Owner, device: bool, spare: SessionRef)
      requires r in all && (chat in threads ==> threads[chat] in sessions)
      modifies this
      ensures View() == Admitted(old(View()), r, chat, owner, device, spare)
    {
      ghost var g := View();
      var s := if chat in threads then threads[chat] else spare;
      if chat !in threads {
        sessions := sessions[s := Session(chat, owner, device, false, false, None, [])];
      }
      threads := threads[chat := s];
      runs := runs + {r};
      JoinSpec(g, r, chat, owner, device, spare);
      Take(r, s);
    }

    /** A turn takes the chat's free slot, or waits. */
    method Take(r: RunRef, s: SessionRef)
      requires r in all && s in sessions
      modifies this`all, this`sessions
      ensures View() == Taken(old(View()), r, s)
    {
      if sessions[s].active.Some? {
        sessions := sessions[s := sessions[s].(queue := sessions[s].queue + [r])];
        all := all[r := all[r].(session := Some(s), phase := Queued, accepted := all[r].accepted + 1)];
      } else {
        sessions := sessions[s := sessions[s].(active := Some(r))];
        all := all[r := all[r].(session := Some(s), phase := Launching, owes := true)];
      }
    }

    static ghost function Taken(g: State, r: RunRef, s: SessionRef): State
      requires r in g.all && s in g.sessions
    {
      var x, run := g.sessions[s], g.all[r].(session := Some(s));
      if x.active.Some?
      then SetRun(SetSession(g, s, x.(queue := x.queue + [r])), r, run.(phase := Queued, accepted := run.accepted + 1))
      else SetRun(SetSession(g, s, x.(active := Some(r))), r, run.(phase := Launching, owes := true))
    }

    static lemma JoinSpec(g: State, r: RunRef, chat: Chat, owner: Owner, device: bool, spare: SessionRef)
      requires r in g.all && (chat in g.threads ==> g.threads[chat] in g.sessions)
      ensures var s := if chat in g.threads then g.threads[chat] else spare;
              var x := if chat in g.threads then g.sessions[s] else Session(chat, owner, device, false, false, None, []);
              var g1 := g.(threads := g.threads[chat := s], runs := g.runs + {r}, sessions := g.sessions[s := x]);
              Admitted(g, r, chat, owner, device, spare) == Taken(g1, r, s)
    {
      hide SetSession;
      var s := if chat in g.threads then g.threads[chat] else spare;
      var x := if chat in g.threads then g.sessions[s] else Session(chat, owner, device, false, false, None, []);
      var g0 := g.(threads := g.threads[chat := s], runs := g.runs + {r});
      var g1 := g.(threads := g.threads[chat := s], runs := g.runs + {r}, sessions := g.sessions[s := x]);
      assert g1 == SetSession(g0, s, x) by { SetIs(g0, s, x); }
      SetOver(g0, s, x, x.(queue := x.queue + [r]));
      SetOver(g0, s, x, x.(active := Some(r)));
    }
  }
}
